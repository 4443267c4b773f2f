/**
 * The analysis pipeline of the HTTP handlers: keyword skill extraction, section
 * extraction, the ATS score, the suggestion list, the upload-time sub-scores, the
 * application-time match score and the application statistics, plus the handlers
 * that tie them to the store.
 */
module Routes {
  import opened Wrappers
  import opened Seqs
  import opened Strings
  import opened JsMath
  import opened Schema
  import opened Storage

  // ---------------------------------------------------------------------------
  // Keyword skill extraction (extractSkills)
  // ---------------------------------------------------------------------------

  const SkillKeywords: seq<string> := [
    "JavaScript", "Python", "Java", "C++", "React", "Node.js", "Express.js",
    "Django", "Git", "Docker", "AWS", "MongoDB", "SQL", "HTML", "CSS",
    "TypeScript", "Angular", "Vue.js", "PostgreSQL", "MySQL", "Redis",
    "Kubernetes", "Jenkins", "Agile", "Scrum", "REST", "GraphQL", "TensorFlow",
    "Machine Learning", "Data Science", "Analytics", "Figma", "Sketch"
  ]

  function FoundIn(text: string): string -> bool {
    keyword => ContainsIgnoreCase(text, keyword)
  }

  /**
   * `keywords.filter(k => text.toLowerCase().includes(k.toLowerCase()))`: the keywords
   * that occur in the text ignoring case, as plain substrings, in list order.
   */
  function KeywordsIn(keywords: seq<string>, text: string): (r: seq<string>)
    ensures IsSubsequence(r, keywords)
    ensures Distinct(keywords) ==> Distinct(r)
    ensures forall k :: 0 <= k < |keywords| ==> (keywords[k] in r <==> ContainsIgnoreCase(text, keywords[k]))
  {
    FilterIsSubsequence(keywords, FoundIn(text));
    if Distinct(keywords) then
      FilterDistinct(keywords, FoundIn(text));
      Filter(keywords, FoundIn(text))
    else
      Filter(keywords, FoundIn(text))
  }

  /** `extractSkills`: the fixed keywords found in the text. */
  function ExtractSkills(text: string): (r: seq<string>)
    ensures IsSubsequence(r, SkillKeywords) && Distinct(r)
    ensures forall k :: 0 <= k < |SkillKeywords| ==> (SkillKeywords[k] in r <==> ContainsIgnoreCase(text, SkillKeywords[k]))
  {
    SkillKeywordsDistinct();
    KeywordsIn(SkillKeywords, text)
  }

  /** No keyword is listed twice, so neither is any extracted skill. */
  lemma SkillKeywordsDistinct()
    ensures Distinct(SkillKeywords)
  {
  }

  /** A keyword found anywhere in the text, even inside a longer word, is extracted. */
  lemma KeywordExtracted(text: string, k: nat)
    requires k < |SkillKeywords| && ContainsIgnoreCase(text, SkillKeywords[k])
    ensures SkillKeywords[k] in ExtractSkills(text)
  {
  }

  /** A case-insensitive occurrence of a word also contains every part of that word. */
  lemma ContainsPart(text: string, word: string, part: string, at: nat)
    requires ContainsIgnoreCase(text, word) && OccursAt(word, part, at)
    ensures ContainsIgnoreCase(text, part)
  {
    LowerOccursAt(word, part, at);
    OccursAtContains(Lower(word), Lower(part), at);
    ContainsTransitive(Lower(text), Lower(word), Lower(part));
  }

  /** "Java" starts "JavaScript". */
  lemma JavaInJavaScript()
    ensures OccursAt(SkillKeywords[0], SkillKeywords[2], 0)
  {
    var word, part := SkillKeywords[0], SkillKeywords[2];
    assert word == "JavaScript" && part == "Java";
    assert word[0..4] == part by {
      assert word[0] == part[0] && word[1] == part[1] && word[2] == part[2] && word[3] == part[3];
    }
  }

  /** "SQL" ends "MySQL". */
  lemma SqlInMySql()
    ensures OccursAt(SkillKeywords[19], SkillKeywords[12], 2)
  {
    var word, part := SkillKeywords[19], SkillKeywords[12];
    assert word == "MySQL" && part == "SQL";
    assert word[2..5] == part by {
      assert word[2] == part[0] && word[3] == part[1] && word[4] == part[2];
    }
  }

  /** "SQL" ends "PostgreSQL". */
  lemma SqlInPostgreSql()
    ensures OccursAt(SkillKeywords[18], SkillKeywords[12], 7)
  {
    var word, part := SkillKeywords[18], SkillKeywords[12];
    assert word == "PostgreSQL" && part == "SQL";
    assert word[7..10] == part by {
      assert word[7] == part[0] && word[8] == part[1] && word[9] == part[2];
    }
  }

  /** There is no word boundary: a text naming JavaScript also yields Java. */
  lemma JavaScriptYieldsJava(text: string)
    requires ContainsIgnoreCase(text, "JavaScript")
    ensures "Java" in ExtractSkills(text)
  {
    assert SkillKeywords[0] == "JavaScript" && SkillKeywords[2] == "Java";
    JavaInJavaScript();
    ContainsPart(text, SkillKeywords[0], SkillKeywords[2], 0);
    KeywordExtracted(text, 2);
  }

  /** Likewise MySQL yields SQL. */
  lemma MySqlYieldsSql(text: string)
    requires ContainsIgnoreCase(text, "MySQL")
    ensures "SQL" in ExtractSkills(text)
  {
    assert SkillKeywords[19] == "MySQL" && SkillKeywords[12] == "SQL";
    SqlInMySql();
    ContainsPart(text, SkillKeywords[19], SkillKeywords[12], 2);
    KeywordExtracted(text, 12);
  }

  /** And PostgreSQL yields SQL. */
  lemma PostgreSqlYieldsSql(text: string)
    requires ContainsIgnoreCase(text, "PostgreSQL")
    ensures "SQL" in ExtractSkills(text)
  {
    assert SkillKeywords[18] == "PostgreSQL" && SkillKeywords[12] == "SQL";
    SqlInPostgreSql();
    ContainsPart(text, SkillKeywords[18], SkillKeywords[12], 7);
    KeywordExtracted(text, 12);
  }

  // ---------------------------------------------------------------------------
  // Section extraction (extractExperience, extractEducation)
  // ---------------------------------------------------------------------------

  /** The first position at or after `from` where `word` occurs, ignoring ASCII case. */
  function FirstOccurrence(text: string, word: string, from: nat): (r: Option<nat>)
    decreases |text| + 1 - from
    ensures r.Some? ==> from <= r.value && OccursIgnoreCaseAt(text, word, r.value)
    ensures forall j: nat :: from <= j && (r.None? || j < r.value) ==> !OccursIgnoreCaseAt(text, word, j)
  {
    if from > |text| then None
    else if OccursIgnoreCaseAt(text, word, from) then Some(from)
    else FirstOccurrence(text, word, from + 1)
  }

  /** The lookahead `(?=t1|t2|$)` holds at `q`: a terminator starts there, ignoring case, or the text ends. */
  predicate StopsAt(text: string, terminators: seq<string>, q: nat) {
    q == |text| || exists k :: 0 <= k < |terminators| && OccursIgnoreCaseAt(text, terminators[k], q)
  }

  /** Where the lazy `[\s\S]*?` started at `from` stops: the first position where the lookahead holds. */
  function SectionEnd(text: string, terminators: seq<string>, from: nat): (q: nat)
    requires from <= |text|
    decreases |text| - from
    ensures from <= q <= |text| && StopsAt(text, terminators, q)
    ensures forall j :: from <= j < q ==> !StopsAt(text, terminators, j)
  {
    if StopsAt(text, terminators, from) then from else SectionEnd(text, terminators, from + 1)
  }

  datatype Span = Span(start: nat, end: nat)

  /**
   * The capture group of `header([\s\S]*?)(?=t1|t2|$)` with the `i` flag, as positions
   * in the text: it starts right after the first case-insensitive occurrence of the
   * header (inside a longer word or not) and ends at the nearest later terminator,
   * or at the end of the text. There is no match exactly when the header never occurs.
   */
  function SectionSpan(text: string, header: string, terminators: seq<string>): (r: Option<Span>)
    ensures r.None? <==> !ContainsIgnoreCase(text, header)
    ensures r.Some? ==>
      && r.value.start >= |header|
      && OccursIgnoreCaseAt(text, header, r.value.start - |header|)
      && (forall j: nat :: j < r.value.start - |header| ==> !OccursIgnoreCaseAt(text, header, j))
      && r.value.start <= r.value.end <= |text|
      && StopsAt(text, terminators, r.value.end)
      && (forall j :: r.value.start <= j < r.value.end ==> !StopsAt(text, terminators, j))
  {
    ContainsIgnoreCaseIff(text, header);
    match FirstOccurrence(text, header, 0)
    case None => None
    case Some(p) => Some(Span(p + |header|, SectionEnd(text, terminators, p + |header|)))
  }

  /** A piece of a split slice of the text has no '\n' and occurs verbatim in the text. */
  lemma PieceOfText(text: string, start: nat, end: nat, piece: string)
    requires start <= end <= |text| && piece in SplitLines(text[start..end])
    ensures '\n' !in piece && Contains(text, piece)
  {
    var block := text[start..end];
    var pieces := SplitLines(block);
    var m :| 0 <= m < |pieces| && pieces[m] == piece;
    assert OccursAt(text, block, start);
    OccursAtContains(text, block, start);
    JoinLinesContains(pieces, m);
    ContainsTransitive(text, block, piece);
  }

  /**
   * The matched block split at '\n' with blank lines dropped, or [] without a match.
   * Each kept line has a non-white-space character, no '\n', occurs verbatim in the
   * text (it is not trimmed), and the lines keep their order.
   */
  function ExtractSection(text: string, header: string, terminators: seq<string>): (lines: seq<string>)
    ensures !ContainsIgnoreCase(text, header) ==> lines == []
    ensures ContainsIgnoreCase(text, header) ==>
      var span := SectionSpan(text, header, terminators).value;
      var pieces := SplitLines(text[span.start..span.end]);
      && lines == Filter(pieces, HasText)
      && IsSubsequence(lines, pieces)
      && forall i :: 0 <= i < |pieces| && HasText(pieces[i]) ==> pieces[i] in lines
    ensures forall i :: 0 <= i < |lines| ==> HasText(lines[i]) && '\n' !in lines[i] && Contains(text, lines[i])
  {
    match SectionSpan(text, header, terminators)
    case None => []
    case Some(span) =>
      var pieces := SplitLines(text[span.start..span.end]);
      var lines := Filter(pieces, HasText);
      FilterIsSubsequence(pieces, HasText);
      forall i | 0 <= i < |lines|
        ensures '\n' !in lines[i] && Contains(text, lines[i])
      {
        PieceOfText(text, span.start, span.end, lines[i]);
      }
      lines
  }

  /** `extractExperience`: from "EXPERIENCE" to the next "EDUCATION" or "SKILLS". */
  function ExtractExperience(text: string): seq<string> {
    ExtractSection(text, "EXPERIENCE", ["EDUCATION", "SKILLS"])
  }

  /** `extractEducation`: from "EDUCATION" to the next "EXPERIENCE" or "SKILLS". */
  function ExtractEducation(text: string): seq<string> {
    ExtractSection(text, "EDUCATION", ["EXPERIENCE", "SKILLS"])
  }

  /**
   * The header test is an unanchored substring: any occurrence, even inside a longer
   * word such as "Experienced", opens a section that starts no later than right after it.
   */
  lemma AnyMentionOpensSection(text: string, header: string, terminators: seq<string>, p: nat)
    requires OccursIgnoreCaseAt(text, header, p)
    ensures SectionSpan(text, header, terminators).Some?
    ensures SectionSpan(text, header, terminators).value.start <= p + |header|
  {
    ContainsIgnoreCaseIff(text, header);
  }

  // ---------------------------------------------------------------------------
  // ATS score (calculateATSScore)
  // ---------------------------------------------------------------------------

  /**
   * min(5·skills, 40) + min(8·experience, 40) + min(10·education, 20), capped at 100;
   * the cap never binds, as the three parts add up to at most 100.
   */
  function AtsScore(skillCount: nat, experienceCount: nat, educationCount: nat): (r: nat)
    ensures r <= 100
    ensures r == Min(5 * skillCount, 40) + Min(8 * experienceCount, 40) + Min(10 * educationCount, 20)
    ensures skillCount == 0 && experienceCount == 0 && educationCount == 0 ==> r == 0
    ensures skillCount >= 8 && experienceCount >= 5 && educationCount >= 2 ==> r == 100
  {
    Min(Min(5 * skillCount, 40) + Min(8 * experienceCount, 40) + Min(10 * educationCount, 20), 100)
  }

  /** More skills, experience lines or education lines never lower the score. */
  lemma AtsScoreMonotone(s1: nat, e1: nat, d1: nat, s2: nat, e2: nat, d2: nat)
    requires s1 <= s2 && e1 <= e2 && d1 <= d2
    ensures AtsScore(s1, e1, d1) <= AtsScore(s2, e2, d2)
  {
  }

  /** `calculateATSScore`: the running score, one capped contribution at a time. */
  method CalculateAtsScore(skills: seq<string>, experience: seq<string>, education: seq<string>) returns (score: int)
    ensures score == AtsScore(|skills|, |experience|, |education|)
    ensures 0 <= score <= 100
  {
    score := 0;
    score := score + Min(|skills| * 5, 40);
    score := score + Min(|experience| * 8, 40);
    score := score + Min(|education| * 10, 20);
    score := Min(score, 100);
  }

  // ---------------------------------------------------------------------------
  // Suggestions (generateSuggestions)
  // ---------------------------------------------------------------------------

  const QuantifiedAchievements := Suggestion(Critical, "Add Quantified Achievements",
    "Replace generic statements with specific, measurable accomplishments. For example: \"Improved website performance by 40%, reducing load time from 3.2s to 1.9s\"",
    High)
  const EnhanceTechnicalSkills := Suggestion(Improvement, "Enhance Technical Skills Section",
    "Add more relevant technical skills that match industry requirements. Consider adding cloud platforms, frameworks, and tools.",
    Medium)
  const HighlightExperience := Suggestion(Enhancement, "Highlight More Experience",
    "Include internships, projects, and relevant coursework to demonstrate your practical experience.",
    Medium)
  const ImproveAtsCompatibility := Suggestion(Optimization, "Improve ATS Compatibility",
    "Use standard section headers and keywords that applicant tracking systems can easily parse.",
    Low)

  /** The order in which the rules are checked. */
  function Rank(kind: SuggestionType): nat {
    match kind
    case Critical => 0
    case Improvement => 1
    case Enhancement => 2
    case Optimization => 3
  }

  /**
   * The suggestion list: critical iff the score is below 60, improvement iff fewer than
   * 8 skills, enhancement iff fewer than 3 experience lines, in that order, always
   * ending with the optimization tip.
   */
  function SuggestionsFor(skillCount: nat, experienceCount: nat, atsScore: int): (r: seq<Suggestion>)
    ensures 1 <= |r| <= 4
    ensures r[|r| - 1] == ImproveAtsCompatibility
    ensures QuantifiedAchievements in r <==> atsScore < 60
    ensures EnhanceTechnicalSkills in r <==> skillCount < 8
    ensures HighlightExperience in r <==> experienceCount < 3
    ensures forall i, j :: 0 <= i < j < |r| ==> Rank(r[i].kind) < Rank(r[j].kind)
  {
    (if atsScore < 60 then [QuantifiedAchievements] else [])
    + (if skillCount < 8 then [EnhanceTechnicalSkills] else [])
    + (if experienceCount < 3 then [HighlightExperience] else [])
    + [ImproveAtsCompatibility]
  }

  /** Every suggestion is one of the four rule tips. */
  lemma OnlyRuleTips(skillCount: nat, experienceCount: nat, atsScore: int)
    ensures forall i :: 0 <= i < |SuggestionsFor(skillCount, experienceCount, atsScore)| ==>
      var s := SuggestionsFor(skillCount, experienceCount, atsScore)[i];
      s == QuantifiedAchievements || s == EnhanceTechnicalSkills || s == HighlightExperience || s == ImproveAtsCompatibility
  {
  }

  /** A score below 60 with too few skills and too little experience triggers every rule. */
  lemma AllRulesFire()
    ensures SuggestionsFor(0, 0, 0) == [QuantifiedAchievements, EnhanceTechnicalSkills, HighlightExperience, ImproveAtsCompatibility]
    ensures TopSuggestions(SuggestionsFor(0, 0, 0)) == [QuantifiedAchievements, EnhanceTechnicalSkills, HighlightExperience]
  {
  }

  /** `generateSuggestions`: pushes the suggestions rule by rule. */
  method GenerateSuggestions(skills: seq<string>, experience: seq<string>, atsScore: int) returns (suggestions: seq<Suggestion>)
    ensures suggestions == SuggestionsFor(|skills|, |experience|, atsScore)
  {
    suggestions := [];
    if atsScore < 60 {
      suggestions := suggestions + [QuantifiedAchievements];
    }
    if |skills| < 8 {
      suggestions := suggestions + [EnhanceTechnicalSkills];
    }
    if |experience| < 3 {
      suggestions := suggestions + [HighlightExperience];
    }
    suggestions := suggestions + [ImproveAtsCompatibility];
  }

  // ---------------------------------------------------------------------------
  // Upload (POST /api/resumes/upload)
  // ---------------------------------------------------------------------------

  /** `req.body.userId || "default-user"`. */
  function UserIdOrDefault(userId: string): (r: string)
    ensures r != ""
    ensures userId != "" ==> r == userId
    ensures userId == "" ==> r == "default-user"
  {
    if userId != "" then userId else "default-user"
  }

  /** `Math.min(skills.length * 10, 100)`. */
  function TechnicalSkillsScore(skillCount: nat): (r: nat)
    ensures r <= 100
    ensures r == 100 <==> skillCount >= 10
    ensures skillCount < 10 ==> r == 10 * skillCount
  {
    Min(skillCount * 10, 100)
  }

  /** `Math.min(experience.length * 15, 100)`. */
  function ExperienceScore(experienceCount: nat): (r: nat)
    ensures r <= 100
    ensures r == 100 <==> experienceCount >= 7
    ensures experienceCount < 7 ==> r == 15 * experienceCount
  {
    Min(experienceCount * 15, 100)
  }

  /** `analysisScore > 70 ? 80 : 40`. */
  function AchievementsScore(overall: int): (r: nat)
    ensures r == 80 || r == 40
    ensures r == 80 <==> overall > 70
  {
    if overall > 70 then 80 else 40
  }

  /** `suggestions.slice(0, 3)`. */
  function TopSuggestions(suggestions: seq<Suggestion>): (r: seq<Suggestion>)
    ensures |r| <= 3
    ensures |r| == if |suggestions| < 3 then |suggestions| else 3
    ensures r == suggestions[..|r|]
  {
    if |suggestions| <= 3 then suggestions else suggestions[..3]
  }

  /** The uploaded file as the upload middleware describes it. */
  datatype UploadedFile = UploadedFile(originalName: string, path: string)

  /** The `analysis` part of the upload response. */
  datatype UploadSummary = UploadSummary(
    score: int, suggestions: seq<Suggestion>, skills: seq<string>, experience: nat, education: nat)

  datatype UploadResult = NoFileUploaded | Uploaded(resume: Resume, analysis: UploadSummary)

  /** What the upload extracts from the text and derives from it. */
  datatype TextAnalysis = TextAnalysis(
    skills: seq<string>, experience: seq<string>, education: seq<string>, score: int, suggestions: seq<Suggestion>)

  /** Skills, experience and education of the text, their ATS score and the suggestions for them. */
  function AnalyzeText(text: string): (a: TextAnalysis)
    ensures a.skills == ExtractSkills(text) && a.experience == ExtractExperience(text)
    ensures a.education == ExtractEducation(text)
    ensures a.score == AtsScore(|a.skills|, |a.experience|, |a.education|)
    ensures a.suggestions == SuggestionsFor(|a.skills|, |a.experience|, a.score)
    ensures 0 <= a.score <= 100
    ensures 1 <= |a.suggestions| <= 4
  {
    var skills := ExtractSkills(text);
    var experience := ExtractExperience(text);
    var education := ExtractEducation(text);
    var score := AtsScore(|skills|, |experience|, |education|);
    TextAnalysis(skills, experience, education, score, SuggestionsFor(|skills|, |experience|, score))
  }

  /**
   * The résumé record the upload stores: the extracted skills double as its keywords,
   * and an empty text or a zero score is stored as null.
   */
  function UploadedResume(id: Id, now: Timestamp, userId: string, file: UploadedFile, text: string, a: TextAnalysis): (r: Resume)
    ensures r.id == id && r.userId == userId && r.uploadedAt == now
    ensures r.fileName == file.originalName && r.filePath == file.path
    ensures r.content.None? <==> text == ""
    ensures r.content.Some? ==> r.content.value == text
    ensures r.skills == Some(a.skills) && r.keywords == r.skills
    ensures r.experience == Some(a.experience) && r.education == Some(a.education)
    ensures r.analysisScore.None? <==> a.score == 0
    ensures r.analysisScore.Some? ==> r.analysisScore.value == a.score
  {
    Resume(id, userId, file.originalName, file.path, StringOrNull(Some(text)), Some(a.skills),
           Some(a.experience), Some(a.education), IntOrNull(Some(a.score)), Some(a.skills), now)
  }

  /**
   * The analysis record the upload stores: no posting, no missing keywords, every
   * suggestion, and the sub-scores, a zero one stored as null.
   */
  function UploadedAnalysis(id: Id, now: Timestamp, resumeId: Id, a: TextAnalysis): (r: ResumeAnalysis)
    ensures r.id == id && r.resumeId == resumeId && r.internshipId.None? && r.createdAt == now
    ensures r.missingKeywords == Some([]) && r.suggestions == Some(a.suggestions)
    ensures r.technicalSkillsScore == IntOrNull(Some(TechnicalSkillsScore(|a.skills|)))
    ensures r.experienceScore == IntOrNull(Some(ExperienceScore(|a.experience|)))
    ensures r.technicalSkillsScore.None? <==> a.skills == []
    ensures r.experienceScore.None? <==> a.experience == []
    ensures r.achievementsScore == Some(if a.score > 70 then 80 else 40)
    ensures r.overallScore.None? <==> a.score == 0
    ensures r.overallScore.Some? ==> r.overallScore.value == a.score
    ensures forall s :: s in [r.technicalSkillsScore, r.experienceScore] && s.Some? ==> 0 < s.value <= 100
  {
    ResumeAnalysis(id, resumeId, None, Some([]), Some(a.suggestions),
                   IntOrNull(Some(TechnicalSkillsScore(|a.skills|))), IntOrNull(Some(ExperienceScore(|a.experience|))),
                   Some(AchievementsScore(a.score)), IntOrNull(Some(a.score)), now)
  }

  /** The two store writes of the upload handler. */
  method StoreUpload(store: MemStorage, file: UploadedFile, userId: string, text: string, a: TextAnalysis,
                     resumeId: Id, analysisId: Id, now: Timestamp) returns (resume: Resume)
    requires store.Valid()
    modifies store
    ensures store.Valid()
    ensures resume == UploadedResume(resumeId, now, userId, file, text, a)
    ensures store.resumes == old(store.resumes).Set(resumeId, resume)
    ensures store.resumeAnalyses == old(store.resumeAnalyses).Set(analysisId, UploadedAnalysis(analysisId, now, resumeId, a))
    ensures store.users == old(store.users) && store.internships == old(store.internships)
    ensures store.applications == old(store.applications)
  {
    resume := store.CreateResume(resumeId, now,
      InsertResume(userId, file.originalName, file.path, Some(text), Some(a.skills),
                   Some(a.experience), Some(a.education), Some(a.score), Some(a.skills)));
    var _ := store.CreateResumeAnalysis(analysisId, now,
      InsertResumeAnalysis(resume.id, None, Some([]), Some(a.suggestions),
                           Some(TechnicalSkillsScore(|a.skills|)), Some(ExperienceScore(|a.experience|)),
                           Some(AchievementsScore(a.score)), Some(a.score)));
  }

  /**
   * The upload handler once the file is stored: without a file nothing changes;
   * otherwise the résumé and its analysis are stored and the answer carries the
   * score, the first three suggestions, the skills and the two line counts.
   */
  method HandleUpload(store: MemStorage, file: Option<UploadedFile>, userIdField: string, text: string,
                      resumeId: Id, analysisId: Id, now: Timestamp) returns (result: UploadResult)
    requires store.Valid()
    modifies store
    ensures store.Valid()
    ensures file.None? ==> result == NoFileUploaded && store.resumes == old(store.resumes)
    ensures file.None? ==> store.resumeAnalyses == old(store.resumeAnalyses)
    ensures file.Some? ==>
      var a := AnalyzeText(text);
      && result == Uploaded(UploadedResume(resumeId, now, UserIdOrDefault(userIdField), file.value, text, a),
                            UploadSummary(a.score, TopSuggestions(a.suggestions), a.skills, |a.experience|, |a.education|))
      && store.resumes == old(store.resumes).Set(resumeId, result.resume)
      && store.resumeAnalyses == old(store.resumeAnalyses).Set(analysisId, UploadedAnalysis(analysisId, now, resumeId, a))
    ensures store.users == old(store.users) && store.internships == old(store.internships)
    ensures store.applications == old(store.applications)
  {
    if file.None? {
      return NoFileUploaded;
    }
    var userId := UserIdOrDefault(userIdField);
    var skills := ExtractSkills(text);
    var experience := ExtractExperience(text);
    var education := ExtractEducation(text);
    var analysisScore := CalculateAtsScore(skills, experience, education);
    var suggestions := GenerateSuggestions(skills, experience, analysisScore);
    var analysis := TextAnalysis(skills, experience, education, analysisScore, suggestions);
    assert analysis == AnalyzeText(text);
    var resume := StoreUpload(store, file.value, userId, text, analysis, resumeId, analysisId, now);
    result := Uploaded(resume, UploadSummary(analysisScore, TopSuggestions(suggestions), skills, |experience|, |education|));
  }

  /** A text that mentions no skill, no experience header and no education header. */
  predicate MentionsNothing(text: string) {
    && !ContainsIgnoreCase(text, "EXPERIENCE") && !ContainsIgnoreCase(text, "EDUCATION")
    && forall k :: 0 <= k < |SkillKeywords| ==> !ContainsIgnoreCase(text, SkillKeywords[k])
  }

  /** A text in which no keyword occurs yields no keywords. */
  lemma KeywordsInNone(keywords: seq<string>, text: string)
    requires forall k :: 0 <= k < |keywords| ==> !ContainsIgnoreCase(text, keywords[k])
    ensures KeywordsIn(keywords, text) == []
  {
    FilterNone(keywords, FoundIn(text));
  }

  /** A text in which no skill keyword occurs, ignoring case, yields no skills. */
  lemma NoSkillsMentioned(text: string)
    requires forall k :: 0 <= k < |SkillKeywords| ==> !ContainsIgnoreCase(text, SkillKeywords[k])
    ensures ExtractSkills(text) == []
  {
    KeywordsInNone(SkillKeywords, text);
  }

  /**
   * Such a text yields no skills and no lines and scores 0 (so its achievements score is 40),
   * and every suggestion rule fires for it.
   */
  lemma EmptyTextAnalysis(text: string)
    requires MentionsNothing(text)
    ensures AnalyzeText(text) == TextAnalysis([], [], [], 0, SuggestionsFor(0, 0, 0))
  {
    NoSkillsMentioned(text);
    assert ExtractExperience(text) == [] && ExtractEducation(text) == [];
  }

  // ---------------------------------------------------------------------------
  // Internship listing (GET /api/internships)
  // ---------------------------------------------------------------------------

  /**
   * The listing handler searches when any of the query, location and industry
   * parameters is non-empty (an absent one is ""), and lists the whole active
   * catalogue otherwise; both branches give the search result.
   */
  function ListInternships(store: MemStorage, query: string, location: string, industry: string): (r: seq<Internship>)
    reads store
    requires store.Valid()
    ensures r == store.SearchInternships(query, location, industry)
  {
    if query != "" || location != "" || industry != "" then store.SearchInternships(query, location, industry)
    else store.AllInternships()
  }

  // ---------------------------------------------------------------------------
  // Creating an application (POST /api/applications)
  // ---------------------------------------------------------------------------

  /**
   * The score the create-application handler computes: 0 unless the résumé, the
   * posting and both skill lists exist; otherwise the rounded percentage of job
   * skills that some résumé skill contains, which is NaN for a posting with an
   * empty skill list.
   */
  function ApplicationMatchScore(resume: Option<Resume>, posting: Option<Internship>): (r: JsNumber)
    ensures resume.None? || posting.None? || resume.value.skills.None? || posting.value.skills.None? ==> r == Finite(0)
    ensures resume.Some? && posting.Some? && resume.value.skills.Some? && posting.value.skills.Some? ==>
      var userSkills, jobSkills := resume.value.skills.value, posting.value.skills.value;
      && (r == NaN <==> |jobSkills| == 0)
      && (|jobSkills| > 0 ==> r == Finite(RoundPercent(|jobSkills| - |MissingKeywords(userSkills, jobSkills)|, |jobSkills|)))
    ensures r.Finite? ==> 0 <= r.value <= 100
  {
    if resume.Some? && posting.Some? && resume.value.skills.Some? && posting.value.skills.Some? then
      var userSkills, jobSkills := resume.value.skills.value, posting.value.skills.value;
      ContainedPlusMissing(userSkills, jobSkills);
      Percent(|ContainedSkills(userSkills, jobSkills)|, |jobSkills|)
    else
      Finite(0)
  }

  /**
   * The one-directional score never exceeds the store's two-directional
   * `calculateMatchScore` of the same skill lists.
   */
  lemma ApplicationScoreWithinMatchScore(resume: Resume, posting: Internship)
    requires resume.skills.Some? && posting.skills.Some? && |posting.skills.value| > 0
    ensures ApplicationMatchScore(Some(resume), Some(posting)).Finite?
    ensures ApplicationMatchScore(Some(resume), Some(posting)).value
            <= CalculateMatchScore(resume.skills.value, posting.skills.value)
  {
    var userSkills, jobSkills := resume.skills.value, posting.skills.value;
    ContainedPlusMissing(userSkills, jobSkills);
    if |userSkills| == 0 {
      FilterNone(jobSkills, CoveredBy(userSkills));
    } else {
      ContainedWithinMatched(userSkills, jobSkills);
      RoundPercentMonotone(|ContainedSkills(userSkills, jobSkills)|, |MatchedSkills(userSkills, jobSkills)|, |jobSkills|);
    }
  }

  /** When every job skill is contained in some résumé skill the score is 100. */
  lemma FullApplicationScore(resume: Resume, posting: Internship)
    requires resume.skills.Some? && posting.skills.Some? && |posting.skills.value| > 0
    requires forall i :: 0 <= i < |posting.skills.value| ==> Covered(resume.skills.value, posting.skills.value[i])
    ensures ApplicationMatchScore(Some(resume), Some(posting)) == Finite(100)
  {
    FilterAll(posting.skills.value, CoveredBy(resume.skills.value));
  }

  /**
   * The create-application handler: the request's own score is replaced by the one
   * computed from the stored résumé and posting, and the application is stored
   * (where a zero or NaN score becomes null).
   */
  method HandleCreateApplication(store: MemStorage, id: Id, now: Timestamp, data: InsertApplication) returns (app: Application)
    requires store.Valid()
    modifies store
    ensures store.Valid()
    ensures
      var score := ApplicationMatchScore(store.resumes.Get(data.resumeId), store.internships.Get(data.internshipId));
      && app == Application(id, data.userId, data.internshipId, data.resumeId, StatusOrPending(data.status),
                            NumberOrNull(score), StringOrNull(data.coverLetter), now, now)
      && store.applications == old(store.applications).Set(id, app)
    ensures store.users == old(store.users) && store.resumes == old(store.resumes) && store.internships == old(store.internships)
    ensures store.resumeAnalyses == old(store.resumeAnalyses)
  {
    var resume := store.resumes.Get(data.resumeId);
    var posting := store.internships.Get(data.internshipId);
    var matchScore := ApplicationMatchScore(resume, posting);
    app := store.CreateApplication(id, now, data.(matchScore := matchScore));
  }

  // ---------------------------------------------------------------------------
  // Application statistics (GET /api/applications/stats)
  // ---------------------------------------------------------------------------

  datatype ApplicationStats = ApplicationStats(
    total: nat, pending: nat, underReview: nat, interviews: nat, accepted: nat, rejected: nat, responseRate: nat)

  function HasStatus(status: string): ApplicationWithDetails -> bool {
    (d: ApplicationWithDetails) => d.application.status == status
  }

  /** The number of applications with the given status. */
  function CountStatus(apps: seq<ApplicationWithDetails>, status: string): (r: nat)
    ensures r <= |apps|
  {
    |Filter(apps, HasStatus(status))|
  }

  /** No application has two of the five statuses, so their counts add up to at most the total. */
  lemma {:induction false} StatusCountsBounded(apps: seq<ApplicationWithDetails>)
    ensures CountStatus(apps, Pending) + CountStatus(apps, UnderReview) + CountStatus(apps, Interview)
            + CountStatus(apps, Accepted) + CountStatus(apps, Rejected) <= |apps|
  {
    if apps != [] {
      StatusCountsBounded(apps[1..]);
    }
  }

  /**
   * The statistics: one count per status, and the rounded percentage of
   * applications that are no longer pending (0 when there are none).
   */
  function Stats(apps: seq<ApplicationWithDetails>): (r: ApplicationStats)
    ensures r.total == |apps|
    ensures r.pending == CountStatus(apps, Pending) && r.underReview == CountStatus(apps, UnderReview)
    ensures r.interviews == CountStatus(apps, Interview) && r.accepted == CountStatus(apps, Accepted)
    ensures r.rejected == CountStatus(apps, Rejected)
    ensures r.pending + r.underReview + r.interviews + r.accepted + r.rejected <= r.total
    ensures r.responseRate <= 100
    ensures |apps| == 0 ==> r.responseRate == 0
    ensures |apps| > 0 ==> r.responseRate == RoundPercent(r.total - r.pending, r.total)
    ensures |apps| > 0 && r.pending == 0 ==> r.responseRate == 100
    ensures r.pending == r.total ==> r.responseRate == 0
  {
    StatusCountsBounded(apps);
    var pending := CountStatus(apps, Pending);
    ApplicationStats(|apps|, pending, CountStatus(apps, UnderReview), CountStatus(apps, Interview),
                     CountStatus(apps, Accepted), CountStatus(apps, Rejected),
                     if |apps| > 0 then RoundPercent(|apps| - pending, |apps|) else 0)
  }

  /** Two application lists with the same length and the same five counts have the same statistics. */
  lemma SameCountsSameStats(a: seq<ApplicationWithDetails>, b: seq<ApplicationWithDetails>)
    requires |a| == |b|
    requires CountStatus(a, Pending) == CountStatus(b, Pending)
    requires CountStatus(a, UnderReview) == CountStatus(b, UnderReview)
    requires CountStatus(a, Interview) == CountStatus(b, Interview)
    requires CountStatus(a, Accepted) == CountStatus(b, Accepted)
    requires CountStatus(a, Rejected) == CountStatus(b, Rejected)
    ensures Stats(a) == Stats(b)
  {
    var x, y := Stats(a), Stats(b);
    assert x.total == y.total && x.responseRate == y.responseRate;
  }

  /** The statistics do not depend on the order the applications are listed in. */
  lemma StatsIgnoreSortOrder(apps: seq<ApplicationWithDetails>)
    ensures Stats(SortDesc(apps, AppliedAtOf)) == Stats(apps)
  {
    SortDescCount(apps, AppliedAtOf, HasStatus(Pending));
    SortDescCount(apps, AppliedAtOf, HasStatus(UnderReview));
    SortDescCount(apps, AppliedAtOf, HasStatus(Interview));
    SortDescCount(apps, AppliedAtOf, HasStatus(Accepted));
    SortDescCount(apps, AppliedAtOf, HasStatus(Rejected));
    SameCountsSameStats(SortDesc(apps, AppliedAtOf), apps);
  }

  /**
   * The statistics handler: the statistics of the user's joined applications
   * (`"default-user"` when no user is given), whatever their order.
   */
  method HandleStats(store: MemStorage, userIdField: string) returns (stats: ApplicationStats)
    requires store.Valid()
    ensures stats == Stats(WithDetails(store.UserApplications(UserIdOrDefault(userIdField)), store.internships, store.resumes))
  {
    var apps := store.GetApplicationsByUserId(UserIdOrDefault(userIdField));
    stats := Stats(apps);
    StatsIgnoreSortOrder(WithDetails(store.UserApplications(UserIdOrDefault(userIdField)), store.internships, store.resumes));
  }
}
