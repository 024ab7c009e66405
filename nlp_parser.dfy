/** The heuristic resume parser of the NLP service: text cleaning, section
    lookup by keyword, skill extraction, and the line-by-line grouping of
    experience and education entries.  The company, title, year, degree and
    university regular expressions are opaque line matchers (`LinePatterns`),
    each returning the first capture group of the first pattern in its list
    that matches, or `None`. */
module NlpParser {
  import opened Wrappers
  import opened Strings
  import opened PythonText
  import JavaText

  // ------------------------------------------------------------ clean_text

  /** `re.sub(r'\s+', ' ', s)`: every maximal run of whitespace becomes one space. */
  function CollapseSpaces(s: string): (r: string)
    ensures forall i :: 0 <= i < |r| ==> !IsSpace(r[i]) || r[i] == ' '
    ensures forall i :: 0 <= i < |r| ==> r[i] == ' ' || r[i] in s
    decreases |s|
  {
    if s == [] then []
    else if IsSpace(s[0]) then
      var rest := StripStart(s);
      assert rest == [] || rest[0] != s[0];
      assert forall c :: c in rest ==> c in s;
      " " + CollapseSpaces(rest)
    else
      assert forall c :: c in s[1..] ==> c in s;
      [s[0]] + CollapseSpaces(s[1..])
  }

  /** The characters with whitespace removed. */
  function NonSpace(s: string): string {
    if s == [] then [] else (if IsSpace(s[0]) then [] else [s[0]]) + NonSpace(s[1..])
  }

  lemma {:induction false} NonSpaceOfSpaces(s: string)
    requires forall i :: 0 <= i < |s| ==> IsSpace(s[i])
    ensures NonSpace(s) == []
  {
    if s != [] {
      NonSpaceOfSpaces(s[1..]);
    }
  }

  lemma {:induction false} NonSpaceAppend(a: string, b: string)
    ensures NonSpace(a + b) == NonSpace(a) + NonSpace(b)
  {
    if a != [] {
      assert (a + b)[1..] == a[1..] + b;
      NonSpaceAppend(a[1..], b);
    } else {
      assert a + b == b;
    }
  }

  /** Collapsing whitespace keeps every other character, in order. */
  lemma {:induction false} CollapseKeepsNonSpace(s: string)
    ensures NonSpace(CollapseSpaces(s)) == NonSpace(s)
    decreases |s|
  {
    if s != [] {
      if IsSpace(s[0]) {
        var rest := StripStart(s);
        var k := |s| - |rest|;
        assert s == s[..k] + rest;
        NonSpaceOfSpaces(s[..k]);
        NonSpaceAppend(s[..k], rest);
        CollapseKeepsNonSpace(rest);
        NonSpaceAppend(" ", CollapseSpaces(rest));
      } else {
        CollapseKeepsNonSpace(s[1..]);
        NonSpaceAppend([s[0]], CollapseSpaces(s[1..]));
      }
    }
  }

  /** The punctuation `clean_text` keeps besides word characters and whitespace. */
  predicate IsKeptPunctuation(c: char) {
    c == '-' || c == '.' || c == ',' || c == '(' || c == ')' || c == '/' || c == '@'
  }

  /** `re.sub(r'[^\w\s\-.,()/@]', ' ', s)`: each other character becomes a space. */
  function BlankOutSymbols(s: string): string {
    seq(|s|, i requires 0 <= i < |s| => KeepOrBlank(s[i]))
  }

  function KeepOrBlank(c: char): char {
    if IsWordChar(c) || IsSpace(c) || IsKeptPunctuation(c) then c else ' '
  }

  /** `clean_text`. */
  function CleanText(s: string): string {
    Strip(BlankOutSymbols(CollapseSpaces(s)))
  }

  /** What cleaned text is made of. */
  predicate IsCleanChar(c: char) {
    IsWordChar(c) || c == ' ' || IsKeptPunctuation(c)
  }

  lemma KeepOrBlankIsClean(c: char)
    requires !IsSpace(c) || c == ' '
    ensures IsCleanChar(KeepOrBlank(c))
  {
  }

  lemma CleanCharIsNotNewline(c: char)
    requires IsCleanChar(c)
    ensures c != '\n' && (IsSpace(c) ==> c == ' ')
  {
  }

  lemma BlankedIsClean(c: string)
    requires forall i :: 0 <= i < |c| ==> !IsSpace(c[i]) || c[i] == ' '
    ensures forall j :: 0 <= j < |BlankOutSymbols(c)| ==> IsCleanChar(BlankOutSymbols(c)[j])
  {
    forall j | 0 <= j < |c| ensures IsCleanChar(BlankOutSymbols(c)[j]) {
      KeepOrBlankIsClean(c[j]);
    }
  }

  lemma StripKeepsClean(b: string)
    requires forall j :: 0 <= j < |b| ==> IsCleanChar(b[j])
    ensures forall i :: 0 <= i < |Strip(b)| ==> IsCleanChar(Strip(b)[i])
  {
    StripIsSlice(b);
    var r := Strip(b);
    var k := |b| - |StripStart(b)|;
    forall i | 0 <= i < |r| ensures IsCleanChar(r[i]) {
      assert r[i] == b[k + i];
    }
  }

  /** Cleaned text is one line with no surrounding whitespace, made of word
      characters, spaces and the kept punctuation only. */
  lemma CleanTextShape(s: string)
    ensures forall i :: 0 <= i < |CleanText(s)| ==> IsCleanChar(CleanText(s)[i])
    ensures '\n' !in CleanText(s)
    ensures CleanText(s) != [] ==> !IsSpace(CleanText(s)[0]) && !IsSpace(CleanText(s)[|CleanText(s)| - 1])
  {
    var b := BlankOutSymbols(CollapseSpaces(s));
    BlankedIsClean(CollapseSpaces(s));
    StripKeepsClean(b);
    StripIsSlice(b);
    var r := CleanText(s);
    forall i | 0 <= i < |r| ensures r[i] != '\n' {
      CleanCharIsNotNewline(r[i]);
    }
  }

  /** Stripping removes whitespace only. */
  lemma StripKeepsNonSpace(b: string)
    ensures NonSpace(Strip(b)) == NonSpace(b)
  {
    var t := StripStart(b);
    var k := |b| - |t|;
    var r := StripEnd(t);
    assert b == b[..k] + t;
    assert t == r + t[|r|..];
    NonSpaceOfSpaces(b[..k]);
    NonSpaceOfSpaces(t[|r|..]);
    NonSpaceAppend(b[..k], t);
    NonSpaceAppend(r, t[|r|..]);
  }

  /** Cleaning touches only whitespace and symbols: on text without symbols,
      every other character survives, in its original order. */
  lemma CleanKeepsText(s: string)
    requires forall i :: 0 <= i < |s| ==> IsWordChar(s[i]) || IsSpace(s[i]) || IsKeptPunctuation(s[i])
    ensures NonSpace(CleanText(s)) == NonSpace(s)
  {
    var c := CollapseSpaces(s);
    CollapseKeepsNonSpace(s);
    var b := BlankOutSymbols(c);
    forall i | 0 <= i < |c| ensures b[i] == c[i] {
      if c[i] != ' ' {
        var j :| 0 <= j < |s| && s[j] == c[i];
      }
    }
    assert b == c;
    StripKeepsNonSpace(b);
  }

  lemma {:induction false} NonSpaceMember(s: string, i: nat)
    requires i < |s| && !IsSpace(s[i])
    ensures s[i] in NonSpace(s)
  {
    if i > 0 {
      NonSpaceMember(s[1..], i - 1);
      NonSpaceAppend([s[0]], s[1..]);
      assert s == [s[0]] + s[1..];
    }
  }

  lemma {:induction false} NonSpaceFrom(s: string, c: char)
    requires c in NonSpace(s)
    ensures c in s
  {
    if s != [] {
      if c != s[0] || IsSpace(s[0]) {
        NonSpaceFrom(s[1..], c);
      }
    }
  }

  // ------------------------------------------------- extract_section_content

  /** The `\b` assertion between positions `p - 1` and `p`. */
  predicate WordBoundary(t: string, p: int)
    requires 0 <= p <= |t|
  {
    (p > 0 && IsWordChar(t[p - 1])) != (p < |t| && IsWordChar(t[p]))
  }

  /** `\b{kw}\b` matches at position `i`.  The text searched is lower-cased
      and every keyword is lower-case, so IGNORECASE adds nothing here. */
  predicate KeywordAt(t: string, kw: string, i: int) {
    0 <= i && i + |kw| <= |t| && t[i..i + |kw|] == kw
    && WordBoundary(t, i) && WordBoundary(t, i + |kw|)
  }

  /** The leftmost match of `\b{kw}\b` at or after `from`, or -1. */
  function FindKeyword(t: string, kw: string, from: nat): (k: int)
    ensures k == -1 || (from <= k && KeywordAt(t, kw, k))
    ensures forall j :: from <= j && (k < 0 || j < k) ==> !KeywordAt(t, kw, j)
    decreases |t| - from
  {
    if from > |t| then -1
    else if KeywordAt(t, kw, from) then from
    else FindKeyword(t, kw, from + 1)
  }

  predicate IsSeparator(c: char) {
    IsSpace(c) || c == ':'
  }

  /** `[\s:]*` taken greedily from `p` (the following `\n?` then matches empty). */
  function SkipSeparators(t: string, p: nat): (j: nat)
    requires p <= |t|
    ensures p <= j <= |t|
    ensures forall k :: p <= k < j ==> IsSeparator(t[k])
    ensures j == |t| || !IsSeparator(t[j])
    decreases |t| - p
  {
    if p < |t| && IsSeparator(t[p]) then SkipSeparators(t, p + 1) else p
  }

  /** `\s*\n` matches from `j`. */
  predicate BlankLineFrom(t: string, j: nat)
    decreases |t| - j
  {
    j < |t| && (t[j] == '\n' || (IsSpace(t[j]) && BlankLineFrom(t, j + 1)))
  }

  /** `[A-Z\s]*:` matches from `j` (ASCII letters of either case, under IGNORECASE). */
  predicate ColonAfterCapsFrom(t: string, j: nat)
    decreases |t| - j
  {
    j < |t| && (t[j] == ':' || ((IsAsciiLetter(t[j]) || IsSpace(t[j])) && ColonAfterCapsFrom(t, j + 1)))
  }

  /** One alternative of `(?:\n\s*\n|\n[A-Z][A-Z\s]*:|\Z)` matches at `e`. */
  predicate SectionEndsAt(t: string, e: nat) {
    e == |t|
    || (e < |t| && t[e] == '\n'
        && (BlankLineFrom(t, e + 1) || (e + 1 < |t| && IsAsciiLetter(t[e + 1]) && ColonAfterCapsFrom(t, e + 2))))
  }

  /** Where the lazy `(.*?)` stops: the first position from which the end
      alternatives match. */
  function SectionEnd(t: string, p: nat): (e: nat)
    requires p <= |t|
    ensures p <= e <= |t| && SectionEndsAt(t, e)
    ensures forall k :: p <= k < e ==> !SectionEndsAt(t, k)
    decreases |t| - p
  {
    if SectionEndsAt(t, p) then p else SectionEnd(t, p + 1)
  }

  /** The stripped group of a match of keyword `kw` at `i`. */
  function SectionBody(t: string, kw: string, i: nat): string
    requires i + |kw| <= |t|
  {
    var p := SkipSeparators(t, i + |kw|);
    Strip(t[p..SectionEnd(t, p)])
  }

  /** The first keyword, from position `from` of the list on, that occurs in
      `t`, or -1. */
  function FirstOccurringKeyword(t: string, keywords: seq<string>, from: nat): (m: int)
    requires from <= |keywords|
    ensures m == -1 || (from <= m < |keywords| && FindKeyword(t, keywords[m], 0) >= 0)
    ensures forall n :: from <= n < |keywords| && (m < 0 || n < m) ==> FindKeyword(t, keywords[n], 0) < 0
    decreases |keywords| - from
  {
    if from == |keywords| then -1
    else if FindKeyword(t, keywords[from], 0) >= 0 then from
    else FirstOccurringKeyword(t, keywords, from + 1)
  }

  /** `extract_section_content`: the keywords are tried in order and the first
      that occurs yields the section body after its leftmost occurrence. */
  function ExtractSectionContent(text: string, keywords: seq<string>): (r: Option<string>)
  {
    var t := Lower(text);
    var m := FirstOccurringKeyword(t, keywords, 0);
    if m < 0 then None else Some(SectionBody(t, keywords[m], FindKeyword(t, keywords[m], 0)))
  }

  /** No section is found exactly when no keyword occurs anywhere as a whole word. */
  lemma SectionAbsentIffNoKeyword(text: string, keywords: seq<string>)
    ensures ExtractSectionContent(text, keywords).None?
            <==> forall n, j :: 0 <= n < |keywords| && 0 <= j ==> !KeywordAt(Lower(text), keywords[n], j)
  {
    var t := Lower(text);
    var m := FirstOccurringKeyword(t, keywords, 0);
    if m >= 0 {
      assert KeywordAt(t, keywords[m], FindKeyword(t, keywords[m], 0));
    }
  }

  /** A found section comes from the first keyword of the list that occurs, at
      its leftmost occurrence; earlier keywords occur nowhere. */
  lemma SectionFromFirstKeyword(text: string, keywords: seq<string>)
    requires ExtractSectionContent(text, keywords).Some?
    ensures var t := Lower(text);
            var m := FirstOccurringKeyword(t, keywords, 0);
            0 <= m < |keywords|
            && var i := FindKeyword(t, keywords[m], 0);
               KeywordAt(t, keywords[m], i)
               && (forall j :: 0 <= j < i ==> !KeywordAt(t, keywords[m], j))
               && (forall n, j :: 0 <= n < m && 0 <= j ==> !KeywordAt(t, keywords[n], j))
               && ExtractSectionContent(text, keywords).value == SectionBody(t, keywords[m], i)
  {
    var t := Lower(text);
    var m := FirstOccurringKeyword(t, keywords, 0);
    forall n, j | 0 <= n < m && 0 <= j ensures !KeywordAt(t, keywords[n], j) {
      assert FindKeyword(t, keywords[n], 0) < 0;
    }
  }

  /** On text without line breaks the section runs to the end of the text. */
  lemma {:induction false} SectionEndOfOneLine(t: string, p: nat)
    requires p <= |t| && '\n' !in t
    ensures SectionEnd(t, p) == |t|
    decreases |t| - p
  {
    if p < |t| {
      assert t[p] != '\n';
      SectionEndOfOneLine(t, p + 1);
    }
  }

  lemma LowerKeepsNewlines(text: string)
    requires '\n' !in text
    ensures '\n' !in Lower(text)
  {
    forall i | 0 <= i < |text| ensures Lower(text)[i] != '\n' {
      assert text[i] != '\n';
    }
  }

  lemma StripOfOneLine(g: string)
    requires '\n' !in g
    ensures '\n' !in Strip(g)
  {
    StripIsSlice(g);
    var k := |g| - |StripStart(g)|;
    forall i | 0 <= i < |Strip(g)| ensures Strip(g)[i] != '\n' {
      assert Strip(g)[i] == g[k + i];
    }
  }

  /** On one-line text a found section is a slice of the text, so it is one line too. */
  lemma SectionOfOneLine(text: string, keywords: seq<string>)
    requires '\n' !in text
    ensures var r := ExtractSectionContent(text, keywords);
            r.Some? ==> '\n' !in r.value
  {
    var t := Lower(text);
    LowerKeepsNewlines(text);
    var m := FirstOccurringKeyword(t, keywords, 0);
    if m >= 0 {
      SectionBodyOfOneLine(t, keywords[m], FindKeyword(t, keywords[m], 0));
    }
  }

  lemma SectionBodyOfOneLine(t: string, kw: string, i: nat)
    requires i + |kw| <= |t| && '\n' !in t
    ensures '\n' !in SectionBody(t, kw, i)
  {
    var p := SkipSeparators(t, i + |kw|);
    SectionEndOfOneLine(t, p);
    var g := t[p..SectionEnd(t, p)];
    assert g == t[p..];
    assert '\n' !in g by {
      forall k | 0 <= k < |g| ensures g[k] != '\n' {
        assert g[k] == t[p + k];
      }
    }
    StripOfOneLine(g);
  }

  /** The truthiness test `if section:` used by the three extractors. */
  function SectionOrText(section: Option<string>, text: string): string {
    if section.Some? && section.value != [] then section.value else text
  }

  // ------------------------------------------------------------ extract_skills

  const TechnicalSkills: seq<string> := [
    "python", "java", "javascript", "typescript", "react", "angular", "vue",
    "node.js", "spring", "django", "flask", "postgresql", "mysql", "mongodb",
    "aws", "azure", "docker", "kubernetes", "git", "jenkins", "ci/cd",
    "machine learning", "ai", "data science", "sql", "nosql", "redis",
    "elasticsearch", "kafka", "rabbitmq", "microservices", "rest", "graphql"
  ]

  const SkillsKeywords: seq<string> := ["skills", "technical skills", "technologies"]

  /** The text the skill keywords are searched in: the skills section when one
      is found and non-empty, the whole text otherwise, lower-cased. */
  function SkillsHaystack(text: string): string {
    Lower(SectionOrText(ExtractSectionContent(text, SkillsKeywords), Lower(text)))
  }

  /** Keyword `k` of `keys` occurs in the haystack (`skill.lower() in haystack`). */
  predicate SkillFound(hay: string, keys: seq<string>, k: nat)
    requires k < |keys|
  {
    Contains(hay, Lower(keys[k]))
  }

  /** The list the loop builds from the first `n` keywords, before `sorted(set(...))`. */
  function FoundSkills(hay: string, keys: seq<string>, n: nat): seq<string>
    requires n <= |keys|
  {
    if n == 0 then []
    else FoundSkills(hay, keys, n - 1) + (if SkillFound(hay, keys, n - 1) then [Title(keys[n - 1])] else [])
  }

  /** The found list holds exactly the title-cased keywords that occur. */
  lemma {:induction false} FoundSkillsMembers(hay: string, keys: seq<string>, n: nat)
    requires n <= |keys|
    ensures forall y :: y in FoundSkills(hay, keys, n) <==>
      exists k :: 0 <= k < n && y == Title(keys[k]) && SkillFound(hay, keys, k)
  {
    if n > 0 {
      FoundSkillsMembers(hay, keys, n - 1);
    }
  }

  /** `extract_skills`: the distinct title-cased keywords that occur in the
      haystack, sorted. */
  method ExtractSkills(text: string) returns (skills: seq<string>)
    ensures StrictlySorted(skills)
    ensures forall y :: y in skills <==>
      exists k :: 0 <= k < |TechnicalSkills| && y == Title(TechnicalSkills[k]) && SkillFound(SkillsHaystack(text), TechnicalSkills, k)
  {
    var hay := SkillsHaystack(text);
    var keys := TechnicalSkills;
    var found: seq<string> := [];
    for i := 0 to |keys|
      invariant found == FoundSkills(hay, keys, i)
    {
      if Contains(hay, Lower(keys[i])) {
        found := found + [Title(keys[i])];
      }
    }
    FoundSkillsMembers(hay, keys, |keys|);
    skills := SortedDistinct(found);
  }

  // ------------------------------------------------- line grouping (shared)

  /** The matchers standing for the regular-expression lists of the source:
      each returns the first capture group of the first matching pattern. */
  datatype LinePatterns = LinePatterns(
    company: string -> Option<string>,
    title: string -> Option<string>,
    years: string -> Option<string>,
    degree: string -> Option<string>,
    university: string -> Option<string>,
    educationYears: string -> Option<string>)

  /** `text.split('\n')`: Python keeps empty pieces, which is exactly `Pieces`. */
  function Lines(s: string): seq<string> {
    JavaText.Pieces(s, "\n")
  }

  /** The entries closed so far and the one being filled in. */
  datatype Grouping<E> = Grouping(done: seq<E>, current: Option<E>)

  /** One stripped, non-empty line: a line that starts an entry closes the
      current one; then the line's details attach to whichever entry is current. */
  function GroupStep<E>(start: string -> Option<E>, attach: (E, string) -> E, g: Grouping<E>, line: string): Grouping<E> {
    var g1 := match start(line)
      case Some(e) => Grouping(if g.current.Some? then g.done + [g.current.value] else g.done, Some(e))
      case None => g;
    if g1.current.Some? then Grouping(g1.done, Some(attach(g1.current.value, line))) else g1
  }

  /** The loop over `lines`: each line is stripped, empty ones are skipped. */
  function GroupLines<E>(start: string -> Option<E>, attach: (E, string) -> E, lines: seq<string>): Grouping<E> {
    if lines == [] then Grouping([], None)
    else
      var g := GroupLines(start, attach, lines[..|lines| - 1]);
      var line := Strip(lines[|lines| - 1]);
      if line == [] then g else GroupStep(start, attach, g, line)
  }

  /** The final `if current: append(current)`. */
  function Close<E>(g: Grouping<E>): seq<E> {
    if g.current.Some? then g.done + [g.current.value] else g.done
  }

  /** The entries the starting lines open, in order. */
  function Starts<E>(start: string -> Option<E>, lines: seq<string>): seq<E> {
    if lines == [] then []
    else
      var line := Strip(lines[|lines| - 1]);
      Starts(start, lines[..|lines| - 1]) + (if line != [] && start(line).Some? then [start(line).value] else [])
  }

  /** One entry per starting line, each keeping the key its start gave it when
      attaching details never changes that key. */
  lemma {:induction false} GroupingFollowsStarts<E, K>(start: string -> Option<E>, attach: (E, string) -> E, key: E -> K, lines: seq<string>)
    requires forall e, l :: key(attach(e, l)) == key(e)
    ensures var c := Close(GroupLines(start, attach, lines));
            var s := Starts(start, lines);
            |c| == |s| && forall k :: 0 <= k < |c| ==> key(c[k]) == key(s[k])
  {
    if lines != [] {
      var prefix := lines[..|lines| - 1];
      GroupingFollowsStarts(start, attach, key, prefix);
      var g := GroupLines(start, attach, prefix);
      var line := Strip(lines[|lines| - 1]);
      var c0 := Close(g);
      var s0 := Starts(start, prefix);
      var c := Close(GroupLines(start, attach, lines));
      var s := Starts(start, lines);
      if line == [] {
        assert c == c0 && s == s0;
      } else {
        var g2 := GroupStep(start, attach, g, line);
        assert c == Close(g2);
        match start(line)
        case Some(e) =>
          assert s == s0 + [e];
          assert c == c0 + [attach(e, line)];
          forall k | 0 <= k < |c| ensures key(c[k]) == key(s[k]) {
            if k == |c0| {
              assert key(attach(e, line)) == key(e);
            } else {
              assert c[k] == c0[k] && s[k] == s0[k];
            }
          }
        case None =>
          assert s == s0;
          if g.current.Some? {
            assert c == g.done + [attach(g.current.value, line)];
            assert c0 == g.done + [g.current.value];
            forall k | 0 <= k < |c| ensures key(c[k]) == key(s[k]) {
              if k == |g.done| {
                assert key(attach(g.current.value, line)) == key(g.current.value);
              } else {
                assert c[k] == c0[k];
              }
            }
          } else {
            assert c == c0;
          }
      }
    }
  }

  /** Every entry a starting line opens has a property that every opened
      entry has. */
  lemma {:induction false} StartsSatisfy<E>(start: string -> Option<E>, P: E -> bool, lines: seq<string>)
    requires forall line :: start(line).Some? ==> P(start(line).value)
    ensures forall k :: 0 <= k < |Starts(start, lines)| ==> P(Starts(start, lines)[k])
  {
    if lines != [] {
      var prefix := lines[..|lines| - 1];
      StartsSatisfy(start, P, prefix);
      var line := Strip(lines[|lines| - 1]);
      var s0 := Starts(start, prefix);
      var s := Starts(start, lines);
      if line != [] && start(line).Some? {
        assert s == s0 + [start(line).value];
        var e := start(line).value;
        assert P(e);
        forall k | 0 <= k < |s| ensures P(s[k]) {
          if k < |s0| {
            assert s[k] == s0[k];
          } else {
            assert s[k] == e;
          }
        }
      } else {
        assert s == s0;
      }
    }
  }

  /** Entries already closed are never changed again: a step at most appends
      the current entry. */
  lemma StepKeepsClosedEntries<E>(start: string -> Option<E>, attach: (E, string) -> E, g: Grouping<E>, line: string)
    ensures var g2 := GroupStep(start, attach, g, line);
            g2.done == g.done || (g.current.Some? && g2.done == g.done + [g.current.value])
  {
  }

  // -------------------------------------------------- extract_experiences

  datatype Experience = Experience(company: string, title: string, years: string, bullets: seq<string>)

  const ExperienceKeywords: seq<string> := ["experience", "work experience", "employment", "professional experience"]

  predicate IsBullet(line: string) {
    line != [] && (line[0] == '\U{2022}' || line[0] == '-' || line[0] == '*')
  }

  /** A company match opens an entry with that company and nothing else. */
  function StartExperience(p: LinePatterns): string -> Option<Experience> {
    line =>
      match p.company(line)
      case Some(g) => Some(Experience(Strip(g), "", "", []))
      case None => None
  }

  /** Title, years and bullet of one line, applied to the current entry. */
  function AttachExperience(p: LinePatterns): (Experience, string) -> Experience {
    (e: Experience, line: string) =>
      var e1 := match p.title(line) case Some(g) => e.(title := Strip(g)) case None => e;
      var e2 := match p.years(line) case Some(g) => e1.(years := Strip(g)) case None => e1;
      if IsBullet(line) then e2.(bullets := e2.bullets + [Strip(line[1..])]) else e2
  }

  /** The experience section, or the whole text when there is none. */
  function ExperienceSource(text: string): string {
    SectionOrText(ExtractSectionContent(text, ExperienceKeywords), text)
  }

  /** All experiences found in a text, as the loop computes them. */
  function ExperiencesOf(p: LinePatterns, text: string): seq<Experience> {
    Close(GroupLines(StartExperience(p), AttachExperience(p), Lines(ExperienceSource(text))))
  }

  /** `extract_experiences`. */
  method ExtractExperiences(p: LinePatterns, text: string) returns (experiences: seq<Experience>)
    ensures experiences == ExperiencesOf(p, text)
  {
    var section := ExtractSectionContent(text, ExperienceKeywords);
    var source := if section.Some? && section.value != [] then section.value else text;
    assert source == ExperienceSource(text);
    experiences := GroupExperienceLines(p, Lines(source));
  }

  /** The loop of `extract_experiences` over the lines of the section. */
  method GroupExperienceLines(p: LinePatterns, lines: seq<string>) returns (experiences: seq<Experience>)
    ensures experiences == Close(GroupLines(StartExperience(p), AttachExperience(p), lines))
  {
    experiences := [];
    var current: Option<Experience> := None;
    for i := 0 to |lines|
      invariant Grouping(experiences, current) == GroupLines(StartExperience(p), AttachExperience(p), lines[..i])
    {
      assert lines[..i + 1][..i] == lines[..i];
      var line := Strip(lines[i]);
      if line != [] {
        var company := p.company(line);
        if company.Some? {
          if current.Some? {
            experiences := experiences + [current.value];
          }
          current := Some(Experience(Strip(company.value), "", "", []));
        }
        var title := p.title(line);
        if title.Some? && current.Some? {
          current := Some(current.value.(title := Strip(title.value)));
        }
        var years := p.years(line);
        if years.Some? && current.Some? {
          current := Some(current.value.(years := Strip(years.value)));
        }
        if IsBullet(line) && current.Some? {
          current := Some(current.value.(bullets := current.value.bullets + [Strip(line[1..])]));
        }
      }
    }
    assert lines[..|lines|] == lines;
    if current.Some? {
      experiences := experiences + [current.value];
    }
  }

  /** One experience per company line, carrying that line's company, in order. */
  lemma ExperiencePerCompanyLine(p: LinePatterns, lines: seq<string>)
    ensures var r := Close(GroupLines(StartExperience(p), AttachExperience(p), lines));
            var s := Starts(StartExperience(p), lines);
            |r| == |s| && forall k :: 0 <= k < |r| ==> r[k].company == s[k].company
  {
    var key := (e: Experience) => e.company;
    assert forall e, l :: key(AttachExperience(p)(e, l)) == key(e);
    GroupingFollowsStarts(StartExperience(p), AttachExperience(p), key, lines);
  }

  // ---------------------------------------------------- extract_education

  datatype Education = Education(institution: string, degree: string, field: string, years: string)

  const EducationKeywords: seq<string> := ["education", "academic background", "qualifications"]

  /** A degree match opens an entry with that degree and nothing else. */
  function StartEducation(p: LinePatterns): string -> Option<Education> {
    line =>
      match p.degree(line)
      case Some(g) => Some(Education("", Strip(g), "", ""))
      case None => None
  }

  /** Institution and years of one line, applied to the current entry. */
  function AttachEducation(p: LinePatterns): (Education, string) -> Education {
    (e: Education, line: string) =>
      var e1 := match p.university(line) case Some(g) => e.(institution := Strip(g)) case None => e;
      match p.educationYears(line) case Some(g) => e1.(years := Strip(g)) case None => e1
  }

  /** The education section, or the whole text when there is none. */
  function EducationSource(text: string): string {
    SectionOrText(ExtractSectionContent(text, EducationKeywords), text)
  }

  function EducationOf(p: LinePatterns, text: string): seq<Education> {
    Close(GroupLines(StartEducation(p), AttachEducation(p), Lines(EducationSource(text))))
  }

  /** `extract_education`. */
  method ExtractEducation(p: LinePatterns, text: string) returns (education: seq<Education>)
    ensures education == EducationOf(p, text)
  {
    var section := ExtractSectionContent(text, EducationKeywords);
    var source := if section.Some? && section.value != [] then section.value else text;
    assert source == EducationSource(text);
    education := GroupEducationLines(p, Lines(source));
  }

  /** The loop of `extract_education` over the lines of the section. */
  method GroupEducationLines(p: LinePatterns, lines: seq<string>) returns (education: seq<Education>)
    ensures education == Close(GroupLines(StartEducation(p), AttachEducation(p), lines))
  {
    education := [];
    var current: Option<Education> := None;
    for i := 0 to |lines|
      invariant Grouping(education, current) == GroupLines(StartEducation(p), AttachEducation(p), lines[..i])
    {
      assert lines[..i + 1][..i] == lines[..i];
      var line := Strip(lines[i]);
      if line != [] {
        var degree := p.degree(line);
        if degree.Some? {
          if current.Some? {
            education := education + [current.value];
          }
          current := Some(Education("", Strip(degree.value), "", ""));
        }
        var institution := p.university(line);
        if institution.Some? && current.Some? {
          current := Some(current.value.(institution := Strip(institution.value)));
        }
        var years := p.educationYears(line);
        if years.Some? && current.Some? {
          current := Some(current.value.(years := Strip(years.value)));
        }
      }
    }
    assert lines[..|lines|] == lines;
    if current.Some? {
      education := education + [current.value];
    }
  }

  /** One education entry per degree line, carrying that line's degree, in order;
      the field is never filled in. */
  lemma EducationPerDegreeLine(p: LinePatterns, lines: seq<string>)
    ensures var r := Close(GroupLines(StartEducation(p), AttachEducation(p), lines));
            var s := Starts(StartEducation(p), lines);
            |r| == |s| && forall k :: 0 <= k < |r| ==> r[k].degree == s[k].degree && r[k].field == ""
  {
    var key := (e: Education) => (e.degree, e.field);
    forall e, l ensures key(AttachEducation(p)(e, l)) == key(e) {
      var e1 := match p.university(l) case Some(g) => e.(institution := Strip(g)) case None => e;
      assert key(e1) == key(e);
    }
    GroupingFollowsStarts(StartEducation(p), AttachEducation(p), key, lines);
    var blankField := (e: Education) => e.field == "";
    StartsSatisfy(StartEducation(p), blankField, lines);
    var r := Close(GroupLines(StartEducation(p), AttachEducation(p), lines));
    var s := Starts(StartEducation(p), lines);
    forall k | 0 <= k < |r| ensures r[k].degree == s[k].degree && r[k].field == "" {
      assert key(r[k]) == key(s[k]);
      assert blankField(s[k]);
    }
  }

  // ---------------------------------------------------- parse_resume_text

  datatype ParsedResume = ParsedResume(skills: seq<string>, experiences: seq<Experience>, education: seq<Education>)

  /** A line-free text has a single piece, so at most one entry of each kind. */
  lemma {:induction false} StartsOfOneLine<E>(start: string -> Option<E>, s: string)
    requires '\n' !in s
    ensures |Starts(start, Lines(s))| <= 1
  {
    forall j | 0 <= j < |s| ensures !OccursAt(s, "\n", j) {
      assert s[j..j + 1] == [s[j]];
    }
    assert JavaText.IndexOf(s, "\n") == -1;
    assert Lines(s) == [s];
    assert Lines(s)[..0] == [];
  }

  /** `parse_resume_text`: clean the text, then extract the three parts. */
  method ParseResumeText(p: LinePatterns, text: string) returns (r: ParsedResume)
    ensures var clean := CleanText(text);
            r.experiences == ExperiencesOf(p, clean) && r.education == EducationOf(p, clean)
    ensures |r.experiences| <= 1 && |r.education| <= 1
    ensures StrictlySorted(r.skills)
    ensures forall y :: y in r.skills <==>
      exists k :: 0 <= k < |TechnicalSkills| && y == Title(TechnicalSkills[k]) && SkillFound(SkillsHaystack(CleanText(text)), TechnicalSkills, k)
  {
    var clean := CleanText(text);
    CleanTextShape(text);
    var skills := ExtractSkills(clean);
    var experiences := ExtractExperiences(p, clean);
    var education := ExtractEducation(p, clean);
    SectionOfOneLine(clean, ExperienceKeywords);
    SectionOfOneLine(clean, EducationKeywords);
    ExperiencePerCompanyLine(p, Lines(ExperienceSource(clean)));
    EducationPerDegreeLine(p, Lines(EducationSource(clean)));
    StartsOfOneLine(StartExperience(p), ExperienceSource(clean));
    StartsOfOneLine(StartEducation(p), EducationSource(clean));
    r := ParsedResume(skills, experiences, education);
  }

  // ---------------------------------------------------------- parse_resume

  datatype Response = Parsed(resume: ParsedResume) | HttpError(status: int, detail: string)

  /** What the `try` block produces: the 400 for blank text, or the result. */
  function TryParse(text: string, parsed: ParsedResume): Response {
    if Strip(text) == [] then HttpError(400, "Text cannot be empty") else Parsed(parsed)
  }

  /** The handler as written: `except Exception` also catches the 400 raised
      inside the `try`, so every error leaves as a 500. */
  function ParseResponseAsWritten(text: string, parsed: ParsedResume): Response {
    match TryParse(text, parsed)
    case HttpError(_, _) => HttpError(500, "Failed to parse resume")
    case ok => ok
  }

  /** The handler as intended: the 400 passes through and only unexpected
      failures become 500 (with the parser total here, there are none). */
  function ParseResponse(text: string, parsed: ParsedResume): Response {
    TryParse(text, parsed)
  }

  /** Whitespace-only text comes back as 500 from the handler as written. */
  lemma BlankTextGets500AsWritten(parsed: ParsedResume)
    ensures ParseResponseAsWritten("   ", parsed) == HttpError(500, "Failed to parse resume")
  {
    assert Strip("   ") == [];
  }

  /** Whitespace-only text is rejected with 400 by the intended handler, and
      any other text is parsed. */
  lemma BlankTextGets400(text: string, parsed: ParsedResume)
    ensures ParseResponse(text, parsed) == HttpError(400, "Text cannot be empty")
            <==> forall i :: 0 <= i < |text| ==> IsSpace(text[i])
    ensures ParseResponse(text, parsed).Parsed? <==> exists i :: 0 <= i < |text| && !IsSpace(text[i])
  {
    StripEmptyIffAllSpace(text);
  }

  /** `parse_resume` with the 400 passed through. */
  method ParseResume(p: LinePatterns, text: string) returns (resp: Response)
    ensures (forall i :: 0 <= i < |text| ==> IsSpace(text[i])) ==> resp == HttpError(400, "Text cannot be empty")
    ensures (exists i :: 0 <= i < |text| && !IsSpace(text[i])) ==>
      resp.Parsed? && resp.resume.experiences == ExperiencesOf(p, CleanText(text))
      && resp.resume.education == EducationOf(p, CleanText(text))
    ensures resp.Parsed? ==> StrictlySorted(resp.resume.skills)
    ensures resp.Parsed? ==> forall y :: y in resp.resume.skills <==>
      exists k :: 0 <= k < |TechnicalSkills| && y == Title(TechnicalSkills[k]) && SkillFound(SkillsHaystack(CleanText(text)), TechnicalSkills, k)
  {
    StripEmptyIffAllSpace(text);
    if Strip(text) == [] {
      resp := HttpError(400, "Text cannot be empty");
    } else {
      var parsed := ParseResumeText(p, text);
      resp := ParseResponse(text, parsed);
    }
  }
}
