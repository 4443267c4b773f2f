/**
 * The records the store keeps and the handlers exchange (users, résumés, internships,
 * applications, résumé analyses), with the nullable columns as `Option`s.
 */
module Schema {
  import opened Wrappers
  import opened JsMath

  /** Record ids (random UUIDs in the application; supplied by the caller here). */
  type Id = string

  /** A point in time, in milliseconds (from `new Date()` in the application; supplied by the caller here). */
  type Timestamp = int

  datatype User = User(
    id: Id, username: string, email: string, password: string,
    firstName: Option<string>, lastName: Option<string>, createdAt: Timestamp)

  datatype InsertUser = InsertUser(
    username: string, email: string, password: string,
    firstName: Option<string>, lastName: Option<string>)

  datatype Resume = Resume(
    id: Id, userId: Id, fileName: string, filePath: string,
    content: Option<string>, skills: Option<seq<string>>, experience: Option<seq<string>>,
    education: Option<seq<string>>, analysisScore: Option<int>, keywords: Option<seq<string>>,
    uploadedAt: Timestamp)

  datatype InsertResume = InsertResume(
    userId: Id, fileName: string, filePath: string,
    content: Option<string>, skills: Option<seq<string>>, experience: Option<seq<string>>,
    education: Option<seq<string>>, analysisScore: Option<int>, keywords: Option<seq<string>>)

  /**
   * A `Partial<Resume>`: `None` where the property is absent, `Some(v)` where it is
   * present with value `v` (which may itself be null for a nullable column).
   */
  datatype ResumePatch = ResumePatch(
    id: Option<Id>, userId: Option<Id>, fileName: Option<string>, filePath: Option<string>,
    content: Option<Option<string>>, skills: Option<Option<seq<string>>>,
    experience: Option<Option<seq<string>>>, education: Option<Option<seq<string>>>,
    analysisScore: Option<Option<int>>, keywords: Option<Option<seq<string>>>,
    uploadedAt: Option<Timestamp>)

  /** A posting; a null `isRemote` or `isActive` column is represented by `false`, as it is falsy. */
  datatype Internship = Internship(
    id: Id, title: string, company: string, description: string, location: string,
    duration: Option<string>, salary: Option<string>, requirements: Option<seq<string>>,
    skills: Option<seq<string>>, industry: Option<string>, isRemote: bool,
    companyLogo: Option<string>, postedAt: Timestamp, isActive: bool)

  datatype Application = Application(
    id: Id, userId: Id, internshipId: Id, resumeId: Id, status: string,
    matchScore: Option<int>, coverLetter: Option<string>,
    appliedAt: Timestamp, updatedAt: Timestamp)

  /** `matchScore` is the number the create-application handler computes, NaN included. */
  datatype InsertApplication = InsertApplication(
    userId: Id, internshipId: Id, resumeId: Id, status: Option<string>,
    matchScore: JsNumber, coverLetter: Option<string>)

  /** The status values the application pipeline uses; the store accepts any string. */
  const Pending := "pending"
  const UnderReview := "under_review"
  const Interview := "interview"
  const Accepted := "accepted"
  const Rejected := "rejected"

  datatype SuggestionType = Critical | Improvement | Enhancement | Optimization
  datatype Priority = High | Medium | Low

  datatype Suggestion = Suggestion(kind: SuggestionType, title: string, description: string, priority: Priority)

  datatype ResumeAnalysis = ResumeAnalysis(
    id: Id, resumeId: Id, internshipId: Option<Id>, missingKeywords: Option<seq<string>>,
    suggestions: Option<seq<Suggestion>>, technicalSkillsScore: Option<int>,
    experienceScore: Option<int>, achievementsScore: Option<int>, overallScore: Option<int>,
    createdAt: Timestamp)

  datatype InsertResumeAnalysis = InsertResumeAnalysis(
    resumeId: Id, internshipId: Option<Id>, missingKeywords: Option<seq<string>>,
    suggestions: Option<seq<Suggestion>>, technicalSkillsScore: Option<int>,
    experienceScore: Option<int>, achievementsScore: Option<int>, overallScore: Option<int>)

  /** A posting as the ranked recommendations return it. */
  datatype InternshipWithMatch = InternshipWithMatch(internship: Internship, matchScore: nat, missingKeywords: seq<string>)

  /** An application joined with its posting and résumé. */
  datatype ApplicationWithDetails = ApplicationWithDetails(application: Application, internship: Internship, resume: Resume)

  /** `s || null` on an optional string: absent, null and "" all become null. */
  function StringOrNull(s: Option<string>): (r: Option<string>)
    ensures r.None? <==> s.None? || s.value == ""
    ensures r.Some? ==> r == s
  {
    if s.Some? && s.value != "" then s else None
  }

  /** `n || null` on an optional integer: absent, null and 0 all become null. */
  function IntOrNull(n: Option<int>): (r: Option<int>)
    ensures r.None? <==> n.None? || n.value == 0
    ensures r.Some? ==> r == n
  {
    if n.Some? && n.value != 0 then n else None
  }
}
