/**
 * The in-memory store (`MemStorage`): five JavaScript `Map` tables, the catalogue
 * queries over the internships table, and the skill matching behind ranked
 * recommendations.
 */
module Storage {
  import opened Wrappers
  import opened Seqs
  import opened Strings
  import opened JsMath
  import opened Schema
  import opened OrderedMaps

  // ---------------------------------------------------------------------------
  // Skill matching
  // ---------------------------------------------------------------------------

  /** Some user skill contains the job skill, ignoring case. */
  predicate Covered(userSkills: seq<string>, jobSkill: string) {
    exists u :: u in userSkills && ContainsIgnoreCase(u, jobSkill)
  }

  /** Some user skill contains the job skill or is contained in it, ignoring case. */
  predicate CoveredEitherWay(userSkills: seq<string>, jobSkill: string) {
    exists u :: u in userSkills && (ContainsIgnoreCase(u, jobSkill) || ContainsIgnoreCase(jobSkill, u))
  }

  function CoveredBy(userSkills: seq<string>): string -> bool {
    j => Covered(userSkills, j)
  }

  function NotCoveredBy(userSkills: seq<string>): string -> bool {
    j => !Covered(userSkills, j)
  }

  function CoveredEitherWayBy(userSkills: seq<string>): string -> bool {
    j => CoveredEitherWay(userSkills, j)
  }

  /** The job skills `calculateMatchScore` counts, duplicates included. */
  function MatchedSkills(userSkills: seq<string>, jobSkills: seq<string>): (r: seq<string>)
    ensures IsSubsequence(r, jobSkills)
    ensures forall i :: 0 <= i < |r| ==> CoveredEitherWay(userSkills, r[i])
    ensures forall i :: 0 <= i < |jobSkills| && CoveredEitherWay(userSkills, jobSkills[i]) ==> jobSkills[i] in r
  {
    FilterIsSubsequence(jobSkills, CoveredEitherWayBy(userSkills));
    Filter(jobSkills, CoveredEitherWayBy(userSkills))
  }

  /**
   * `calculateMatchScore`: the rounded percentage of job skills that some user skill
   * contains or is contained in; 0 when either list is empty.
   */
  function CalculateMatchScore(userSkills: seq<string>, jobSkills: seq<string>): (r: nat)
    ensures r <= 100
    ensures |userSkills| == 0 || |jobSkills| == 0 ==> r == 0
    ensures |userSkills| > 0 && |jobSkills| > 0 ==>
      r == RoundPercent(|MatchedSkills(userSkills, jobSkills)|, |jobSkills|)
    ensures |jobSkills| > 0 && (forall i :: 0 <= i < |jobSkills| ==> CoveredEitherWay(userSkills, jobSkills[i])) ==> r == 100
  {
    if |userSkills| == 0 || |jobSkills| == 0 then 0
    else
      assert (forall i :: 0 <= i < |jobSkills| ==> CoveredEitherWay(userSkills, jobSkills[i])) ==>
        MatchedSkills(userSkills, jobSkills) == jobSkills by {
        if forall i :: 0 <= i < |jobSkills| ==> CoveredEitherWay(userSkills, jobSkills[i]) {
          FilterAll(jobSkills, CoveredEitherWayBy(userSkills));
        }
      }
      RoundPercent(|MatchedSkills(userSkills, jobSkills)|, |jobSkills|)
  }

  /**
   * The missing keywords of a ranked posting: the job skills, in order and with
   * duplicates, that no user skill contains (one direction only).
   */
  function MissingKeywords(userSkills: seq<string>, jobSkills: seq<string>): (r: seq<string>)
    ensures IsSubsequence(r, jobSkills)
    ensures forall i :: 0 <= i < |r| ==> !Covered(userSkills, r[i])
    ensures forall i :: 0 <= i < |jobSkills| && !Covered(userSkills, jobSkills[i]) ==> jobSkills[i] in r
  {
    FilterIsSubsequence(jobSkills, NotCoveredBy(userSkills));
    Filter(jobSkills, NotCoveredBy(userSkills))
  }

  /** The job skills that some user skill contains, duplicates included (the create-application test). */
  function ContainedSkills(userSkills: seq<string>, jobSkills: seq<string>): (r: seq<string>)
    ensures IsSubsequence(r, jobSkills)
    ensures forall i :: 0 <= i < |r| ==> Covered(userSkills, r[i])
    ensures forall i :: 0 <= i < |jobSkills| && Covered(userSkills, jobSkills[i]) ==> jobSkills[i] in r
  {
    FilterIsSubsequence(jobSkills, CoveredBy(userSkills));
    Filter(jobSkills, CoveredBy(userSkills))
  }

  /** Each job skill is either contained in a user skill or missing, never both. */
  lemma ContainedPlusMissing(userSkills: seq<string>, jobSkills: seq<string>)
    ensures |ContainedSkills(userSkills, jobSkills)| + |MissingKeywords(userSkills, jobSkills)| == |jobSkills|
  {
    FilterComplement(jobSkills, CoveredBy(userSkills), NotCoveredBy(userSkills));
  }

  /** The one-directional test never counts more skills than the two-directional one. */
  lemma ContainedWithinMatched(userSkills: seq<string>, jobSkills: seq<string>)
    ensures |ContainedSkills(userSkills, jobSkills)| <= |MatchedSkills(userSkills, jobSkills)|
  {
    FilterWeaker(jobSkills, CoveredBy(userSkills), CoveredEitherWayBy(userSkills));
  }

  /** Every job skill that is not missing is counted by the match score. */
  lemma MissingAndMatched(userSkills: seq<string>, jobSkills: seq<string>)
    ensures |MatchedSkills(userSkills, jobSkills)| >= |jobSkills| - |MissingKeywords(userSkills, jobSkills)|
  {
    ContainedPlusMissing(userSkills, jobSkills);
    ContainedWithinMatched(userSkills, jobSkills);
  }

  /** With no résumé skills every job skill is missing. */
  lemma NoSkillsAllMissing(jobSkills: seq<string>)
    ensures MissingKeywords([], jobSkills) == jobSkills
  {
    FilterAll(jobSkills, NotCoveredBy([]));
  }

  /** A repeated job skill is counted once per occurrence. */
  lemma DuplicatesCountSeparately(userSkills: seq<string>, jobSkills: seq<string>, j: string)
    requires CoveredEitherWay(userSkills, j)
    ensures |MatchedSkills(userSkills, jobSkills + [j])| == |MatchedSkills(userSkills, jobSkills)| + 1
  {
    FilterAppend(jobSkills, [j], CoveredEitherWayBy(userSkills));
    assert Filter([j], CoveredEitherWayBy(userSkills)) == [j] by {
      assert [j][1..] == [];
    }
  }

  // ---------------------------------------------------------------------------
  // Ranked matching (getMatchingInternships)
  // ---------------------------------------------------------------------------

  /** `internship.skills || []`. */
  function SkillsOf(posting: Internship): seq<string> {
    posting.skills.GetOr([])
  }

  /** One posting with its match score and missing keywords. */
  function MatchEntry(userSkills: seq<string>, posting: Internship): InternshipWithMatch {
    var jobSkills := SkillsOf(posting);
    InternshipWithMatch(posting, CalculateMatchScore(userSkills, jobSkills), MissingKeywords(userSkills, jobSkills))
  }

  /** The `map` step: every posting annotated, in catalogue order. */
  function Annotate(userSkills: seq<string>, postings: seq<Internship>): (r: seq<InternshipWithMatch>)
    ensures |r| == |postings|
    ensures forall i :: 0 <= i < |r| ==> r[i] == MatchEntry(userSkills, postings[i])
  {
    if postings == [] then [] else [MatchEntry(userSkills, postings[0])] + Annotate(userSkills, postings[1..])
  }

  function ScoreOf(e: InternshipWithMatch): int {
    e.matchScore
  }

  /**
   * The `map` then `sort` of getMatchingInternships: one entry per posting, by
   * non-increasing match score, postings with equal scores in catalogue order.
   */
  function RankMatches(userSkills: seq<string>, postings: seq<Internship>): (r: seq<InternshipWithMatch>)
    ensures |r| == |postings|
    ensures multiset(r) == multiset(Annotate(userSkills, postings))
    ensures SortedDesc(r, ScoreOf)
    ensures forall k :: WithKey(r, ScoreOf, k) == WithKey(Annotate(userSkills, postings), ScoreOf, k)
    ensures forall i :: 0 <= i < |r| ==> r[i].matchScore <= 100
  {
    var annotated := Annotate(userSkills, postings);
    var r := SortDesc(annotated, ScoreOf);
    assert forall k :: WithKey(r, ScoreOf, k) == WithKey(annotated, ScoreOf, k) by {
      forall k ensures WithKey(r, ScoreOf, k) == WithKey(annotated, ScoreOf, k) {
        SortDescStable(annotated, ScoreOf, k);
      }
    }
    assert forall i :: 0 <= i < |r| ==> r[i].matchScore <= 100 by {
      forall i | 0 <= i < |r| ensures r[i].matchScore <= 100 {
        assert r[i] in multiset(annotated);
      }
    }
    r
  }

  // ---------------------------------------------------------------------------
  // Catalogue search (searchInternships)
  // ---------------------------------------------------------------------------

  /** The free-text test: empty, or found in title, company, description or a skill. */
  predicate MatchesQuery(posting: Internship, query: string) {
    || query == ""
    || ContainsIgnoreCase(posting.title, query)
    || ContainsIgnoreCase(posting.company, query)
    || ContainsIgnoreCase(posting.description, query)
    || (posting.skills.Some? && exists s :: s in posting.skills.value && ContainsIgnoreCase(s, query))
  }

  /** The location test; "Remote" also accepts postings flagged remote. */
  predicate MatchesLocation(posting: Internship, location: string) {
    || location == ""
    || location == "All Locations"
    || ContainsIgnoreCase(posting.location, location)
    || (location == "Remote" && posting.isRemote)
  }

  /** The industry test; a posting without an industry passes only an empty or "All Industries" filter. */
  predicate MatchesIndustry(posting: Internship, industry: string) {
    || industry == ""
    || industry == "All Industries"
    || (posting.industry.Some? && ContainsIgnoreCase(posting.industry.value, industry))
  }

  /** The free-text test ignores the case of the query. */
  lemma QueryCaseIgnored(posting: Internship, query: string)
    ensures MatchesQuery(posting, Lower(query)) <==> MatchesQuery(posting, query)
  {
    ContainsIgnoreCaseLowered(posting.title, query);
    ContainsIgnoreCaseLowered(posting.company, query);
    ContainsIgnoreCaseLowered(posting.description, query);
    forall s | s in (if posting.skills.Some? then posting.skills.value else [])
      ensures ContainsIgnoreCase(s, Lower(query)) <==> ContainsIgnoreCase(s, query)
    {
      ContainsIgnoreCaseLowered(s, query);
    }
  }

  function SearchFilter(query: string, location: string, industry: string): Internship -> bool {
    posting => MatchesQuery(posting, query) && MatchesLocation(posting, location) && MatchesIndustry(posting, industry)
  }

  /** With no query, no location and no industry every posting passes the search. */
  lemma UnfilteredSearch(postings: seq<Internship>, query: string, location: string, industry: string)
    requires query == "" && (location == "" || location == "All Locations")
    requires industry == "" || industry == "All Industries"
    ensures Filter(postings, SearchFilter(query, location, industry)) == postings
  {
    FilterAll(postings, SearchFilter(query, location, industry));
  }

  function IsActive(posting: Internship): bool {
    posting.isActive
  }

  // ---------------------------------------------------------------------------
  // Applications joined with their posting and résumé
  // ---------------------------------------------------------------------------

  /** The application with its posting and résumé, when both are stored. */
  function Details(app: Application, internships: OrderedMap<Internship>, resumes: OrderedMap<Resume>): (r: Option<ApplicationWithDetails>)
    ensures r.Some? <==> internships.Get(app.internshipId).Some? && resumes.Get(app.resumeId).Some?
    ensures r.Some? ==> r.value.application == app && internships.Get(app.internshipId) == Some(r.value.internship)
                        && resumes.Get(app.resumeId) == Some(r.value.resume)
  {
    match (internships.Get(app.internshipId), resumes.Get(app.resumeId))
    case (Some(posting), Some(resume)) => Some(ApplicationWithDetails(app, posting, resume))
    case _ => None
  }

  /** The loop of getApplicationsByUserId: the applications whose posting and résumé both exist, joined, in order. */
  function WithDetails(apps: seq<Application>, internships: OrderedMap<Internship>, resumes: OrderedMap<Resume>): (r: seq<ApplicationWithDetails>)
    ensures |r| <= |apps|
    ensures forall k :: 0 <= k < |r| ==> r[k].application in apps && Details(r[k].application, internships, resumes) == Some(r[k])
    ensures forall k :: 0 <= k < |apps| && Details(apps[k], internships, resumes).Some? ==> Details(apps[k], internships, resumes).value in r
    decreases |apps|
  {
    if apps == [] then []
    else
      var init := apps[..|apps| - 1];
      var last := apps[|apps| - 1];
      assert forall k :: 0 <= k < |init| ==> init[k] == apps[k];
      WithDetails(init, internships, resumes) + match Details(last, internships, resumes) { case Some(d) => [d] case None => [] }
  }

  lemma WithDetailsSnoc(apps: seq<Application>, app: Application, internships: OrderedMap<Internship>, resumes: OrderedMap<Resume>)
    ensures WithDetails(apps + [app], internships, resumes) ==
      WithDetails(apps, internships, resumes) + match Details(app, internships, resumes) { case Some(d) => [d] case None => [] }
  {
    assert (apps + [app])[..|apps|] == apps;
  }

  /** The applications `Details` can join: their posting and their résumé are both stored. */
  function JoinableIn(internships: OrderedMap<Internship>, resumes: OrderedMap<Resume>): Application -> bool {
    app => Details(app, internships, resumes).Some?
  }

  /**
   * The join lists the joinable applications, each exactly once and in their order,
   * each joined with its posting and résumé.
   */
  lemma {:induction false} WithDetailsExact(apps: seq<Application>, internships: OrderedMap<Internship>, resumes: OrderedMap<Resume>)
    ensures var f := Filter(apps, JoinableIn(internships, resumes));
      |WithDetails(apps, internships, resumes)| == |f|
      && forall k :: 0 <= k < |f| ==> WithDetails(apps, internships, resumes)[k] == Details(f[k], internships, resumes).value
    decreases |apps|
  {
    if apps != [] {
      var joinable := JoinableIn(internships, resumes);
      var init, last := apps[..|apps| - 1], apps[|apps| - 1];
      assert init + [last] == apps;
      WithDetailsExact(init, internships, resumes);
      WithDetailsSnoc(init, last, internships, resumes);
      FilterAppend(init, [last], joinable);
      assert Filter([last], joinable) == if joinable(last) then [last] else [] by {
        assert [last][1..] == [];
      }
    }
  }

  /** The loop of getApplicationsByUserId, one application at a time. */
  method JoinDetails(apps: seq<Application>, internships: OrderedMap<Internship>, resumes: OrderedMap<Resume>)
    returns (joined: seq<ApplicationWithDetails>)
    ensures joined == WithDetails(apps, internships, resumes)
  {
    joined := [];
    for k := 0 to |apps|
      invariant joined == WithDetails(apps[..k], internships, resumes)
    {
      var app := apps[k];
      var posting := internships.Get(app.internshipId);
      var resume := resumes.Get(app.resumeId);
      if posting.Some? && resume.Some? {
        joined := joined + [ApplicationWithDetails(app, posting.value, resume.value)];
      }
      WithDetailsSnoc(apps[..k], app, internships, resumes);
      assert apps[..k + 1] == apps[..k] + [app];
    }
    assert apps[..|apps|] == apps;
  }

  function AppliedAtOf(d: ApplicationWithDetails): int {
    d.application.appliedAt
  }

  /** Sorting the joined applications keeps each entry tied to a listed application and its stored posting and résumé. */
  lemma SortedJoinMembers(apps: seq<Application>, internships: OrderedMap<Internship>, resumes: OrderedMap<Resume>)
    ensures var r := SortDesc(WithDetails(apps, internships, resumes), AppliedAtOf);
      forall k :: 0 <= k < |r| ==> r[k].application in apps && Details(r[k].application, internships, resumes) == Some(r[k])
  {
    var joined := WithDetails(apps, internships, resumes);
    var r := SortDesc(joined, AppliedAtOf);
    forall k | 0 <= k < |r|
      ensures r[k].application in apps && Details(r[k].application, internships, resumes) == Some(r[k])
    {
      assert r[k] in multiset(joined);
      var m :| 0 <= m < |joined| && joined[m] == r[k];
    }
  }

  function OwnedBy(userId: Id): Application -> bool {
    (app: Application) => app.userId == userId
  }

  function AnalysisFor(resumeId: Id, internshipId: string): ResumeAnalysis -> bool {
    (a: ResumeAnalysis) => a.resumeId == resumeId && (internshipId == "" || a.internshipId == Some(internshipId))
  }

  /** `{ ...resume, ...patch }`: the properties present in the patch replace the résumé's. */
  function ApplyPatch(resume: Resume, patch: ResumePatch): Resume {
    Resume(
      patch.id.GetOr(resume.id), patch.userId.GetOr(resume.userId),
      patch.fileName.GetOr(resume.fileName), patch.filePath.GetOr(resume.filePath),
      patch.content.GetOr(resume.content), patch.skills.GetOr(resume.skills),
      patch.experience.GetOr(resume.experience), patch.education.GetOr(resume.education),
      patch.analysisScore.GetOr(resume.analysisScore), patch.keywords.GetOr(resume.keywords),
      patch.uploadedAt.GetOr(resume.uploadedAt))
  }

  const NoChanges := ResumePatch(None, None, None, None, None, None, None, None, None, None, None)

  /** `{ ...p, ...q }` on two patches: q's properties win. */
  function MergePatches(p: ResumePatch, q: ResumePatch): ResumePatch {
    ResumePatch(
      if q.id.Some? then q.id else p.id, if q.userId.Some? then q.userId else p.userId,
      if q.fileName.Some? then q.fileName else p.fileName, if q.filePath.Some? then q.filePath else p.filePath,
      if q.content.Some? then q.content else p.content, if q.skills.Some? then q.skills else p.skills,
      if q.experience.Some? then q.experience else p.experience,
      if q.education.Some? then q.education else p.education,
      if q.analysisScore.Some? then q.analysisScore else p.analysisScore,
      if q.keywords.Some? then q.keywords else p.keywords,
      if q.uploadedAt.Some? then q.uploadedAt else p.uploadedAt)
  }

  /** An empty patch changes nothing. */
  lemma ApplyNoChanges(resume: Resume)
    ensures ApplyPatch(resume, NoChanges) == resume
  {
  }

  /** Applying the same patch twice is applying it once. */
  lemma ApplyPatchIdempotent(resume: Resume, patch: ResumePatch)
    ensures ApplyPatch(ApplyPatch(resume, patch), patch) == ApplyPatch(resume, patch)
  {
  }

  /** Two updates in a row are one update with the merged patch. */
  lemma ApplyPatchTwice(resume: Resume, p: ResumePatch, q: ResumePatch)
    ensures ApplyPatch(ApplyPatch(resume, p), q) == ApplyPatch(resume, MergePatches(p, q))
  {
  }

  /** `status || "pending"`. */
  function StatusOrPending(status: Option<string>): (r: string)
    ensures r != ""
    ensures status.Some? && status.value != "" ==> r == status.value
    ensures status.None? || status.value == "" ==> r == Pending
  {
    if status.Some? && status.value != "" then status.value else Pending
  }

  // ---------------------------------------------------------------------------
  // Seed data
  // ---------------------------------------------------------------------------

  const Day := 24 * 60 * 60 * 1000

  /** The five postings the store starts with, posted 2, 5, 7, 14 and 10 days before `now`. */
  function SampleInternships(now: Timestamp): seq<Internship> {
    [SampleMicrosoft(now), SampleGoogle(now), SampleSpotify(now), SampleSlack(now), SampleNetflix(now)]
  }

  function SampleMicrosoft(now: Timestamp): Internship
  {
    Internship("1", "Software Engineering Intern", "Microsoft",
        "Join our team to develop scalable web applications using React, Node.js, and Azure cloud services. You'll work on real products used by millions of users worldwide.",
        "Seattle, WA", Some("3 months"), Some("$6,000/month"),
        Some(["Computer Science or related field", "Experience with JavaScript", "Knowledge of React", "Understanding of software development principles"]),
        Some(["React", "Node.js", "Azure", "TypeScript", "JavaScript", "Git"]),
        Some("Technology"), false, Some("fab fa-microsoft"), now - 2 * Day, true)
  }

  function SampleGoogle(now: Timestamp): Internship
  {
    Internship("2", "Data Science Intern", "Google",
        "Work with large datasets to derive insights and build machine learning models. Experience with Python, SQL, and TensorFlow preferred.",
        "Mountain View, CA", Some("3 months"), Some("$7,500/month"),
        Some(["Statistics or Computer Science background", "Python proficiency", "SQL knowledge", "Machine learning fundamentals"]),
        Some(["Python", "SQL", "TensorFlow", "Machine Learning", "Data Analysis", "Statistics"]),
        Some("Technology"), false, Some("fab fa-google"), now - 5 * Day, true)
  }

  function SampleSpotify(now: Timestamp): Internship
  {
    Internship("3", "UX Design Intern", "Spotify",
        "Design user experiences for our mobile and web platforms. Collaborate with product managers and engineers to create intuitive interfaces.",
        "New York, NY", Some("4 months"), Some("$5,500/month"),
        Some(["Design portfolio", "Figma proficiency", "User research experience", "Basic prototyping skills"]),
        Some(["Figma", "Sketch", "Prototyping", "User Research", "Design Systems", "Adobe Creative Suite"]),
        Some("Technology"), false, Some("fab fa-spotify"), now - 7 * Day, true)
  }

  function SampleSlack(now: Timestamp): Internship
  {
    Internship("4", "Product Management Intern", "Slack",
        "Work with cross-functional teams to define product roadmaps and drive feature development. Great opportunity to learn product strategy.",
        "San Francisco, CA", Some("3 months"), Some("$6,500/month"),
        Some(["Business or technical background", "Analytical thinking", "Communication skills", "Interest in product development"]),
        Some(["Product Strategy", "Analytics", "Roadmapping", "User Stories", "Market Research", "Agile"]),
        Some("Technology"), true, Some("fab fa-slack"), now - 14 * Day, true)
  }

  function SampleNetflix(now: Timestamp): Internship
  {
    Internship("5", "Marketing Analytics Intern", "Netflix",
        "Analyze marketing campaigns and user engagement data to optimize marketing strategies and improve user acquisition.",
        "Los Angeles, CA", Some("4 months"), Some("$5,000/month"),
        Some(["Marketing or Analytics background", "Excel proficiency", "SQL knowledge", "Statistical analysis skills"]),
        Some(["Excel", "SQL", "Google Analytics", "A/B Testing", "Data Visualization", "Marketing"]),
        Some("Media"), false, Some("fab fa-netflix"), now - 10 * Day, true)
  }

  /** `forEach(item => map.set(item.id, item))`. */
  function SetEach(m: OrderedMap<Internship>, items: seq<Internship>): (r: OrderedMap<Internship>)
    requires m.Valid()
    ensures r.Valid()
    ensures forall i :: 0 <= i < |items| ==> r.Get(items[i].id).Some?
    ensures forall id :: (forall i :: 0 <= i < |items| ==> items[i].id != id) ==> r.Get(id) == m.Get(id)
  {
    if items == [] then m
    else
      var init := items[..|items| - 1];
      assert forall i :: 0 <= i < |init| ==> init[i] == items[i];
      SetEach(m, init).Set(items[|items| - 1].id, items[|items| - 1])
  }

  /** A posting that no later posting with the same id overwrites is the one stored under its id. */
  lemma {:induction false} SetEachLastWins(m: OrderedMap<Internship>, items: seq<Internship>, i: nat)
    requires m.Valid() && i < |items|
    requires forall j :: i < j < |items| ==> items[j].id != items[i].id
    ensures SetEach(m, items).Get(items[i].id) == Some(items[i])
    decreases |items|
  {
    var init := items[..|items| - 1];
    if i < |init| {
      assert init[i] == items[i];
      assert forall j :: i < j < |init| ==> init[j] == items[j];
      SetEachLastWins(m, init, i);
    }
  }

  /** Seeding postings with pairwise different new ids lists them after the existing values, in seed order. */
  lemma {:induction false} SetEachValues(m: OrderedMap<Internship>, items: seq<Internship>)
    requires m.Valid()
    requires forall i, j :: 0 <= i < j < |items| ==> items[i].id != items[j].id
    requires forall i :: 0 <= i < |items| ==> m.Get(items[i].id).None?
    ensures SetEach(m, items).Values() == m.Values() + items
  {
    if items == [] {
      assert m.Values() + items == m.Values();
    } else {
      var init := items[..|items| - 1];
      var last := items[|items| - 1];
      assert forall i :: 0 <= i < |init| ==> init[i] == items[i];
      SetEachValues(m, init);
      assert forall i :: 0 <= i < |init| ==> init[i].id != last.id;
      SetNewKeyExtends(SetEach(m, init), m.Values(), items, last.id);
    }
  }

  /** The seed loop on an empty table with pairwise different ids lists the postings in seed order. */
  lemma SeededCatalogueOrder(items: seq<Internship>)
    requires forall i, j :: 0 <= i < j < |items| ==> items[i].id != items[j].id
    ensures SetEach(Empty(), items).Values() == items
  {
    SetEachValues(Empty(), items);
  }

  // ---------------------------------------------------------------------------
  // The store
  // ---------------------------------------------------------------------------

  class MemStorage {
    var users: OrderedMap<User>
    var resumes: OrderedMap<Resume>
    var internships: OrderedMap<Internship>
    var applications: OrderedMap<Application>
    var resumeAnalyses: OrderedMap<ResumeAnalysis>

    ghost predicate Valid()
      reads this
    {
      users.Valid() && resumes.Valid() && internships.Valid() && applications.Valid() && resumeAnalyses.Valid()
    }

    /** An empty store seeded with the postings of `seed`, set one after the other. */
    constructor (seed: seq<Internship>)
      ensures Valid()
      ensures internships == SetEach(Empty(), seed)
      ensures users.Values() == [] && resumes.Values() == [] && applications.Values() == [] && resumeAnalyses.Values() == []
    {
      users, resumes, applications, resumeAnalyses := Empty(), Empty(), Empty(), Empty();
      internships := Empty();
      new;
      SetInternships(seed);
    }

    /** `initializeData`'s loop: sets every posting under its id, in order. */
    method SetInternships(samples: seq<Internship>)
      requires Valid()
      modifies this
      ensures Valid()
      ensures internships == SetEach(old(internships), samples)
      ensures users == old(users) && resumes == old(resumes)
      ensures applications == old(applications) && resumeAnalyses == old(resumeAnalyses)
    {
      for k := 0 to |samples|
        invariant Valid()
        invariant internships == SetEach(old(internships), samples[..k])
        invariant users == old(users) && resumes == old(resumes)
        invariant applications == old(applications) && resumeAnalyses == old(resumeAnalyses)
      {
        assert samples[..k + 1][..k] == samples[..k];
        internships := internships.Set(samples[k].id, samples[k]);
      }
      assert samples[..|samples|] == samples;
    }

    /** `createUser`: stores a new user under `id`; empty first and last names become null. */
    method CreateUser(id: Id, now: Timestamp, insert: InsertUser) returns (user: User)
      requires Valid()
      modifies this
      ensures Valid()
      ensures user == User(id, insert.username, insert.email, insert.password,
                           StringOrNull(insert.firstName), StringOrNull(insert.lastName), now)
      ensures users == old(users).Set(id, user)
      ensures resumes == old(resumes) && internships == old(internships)
      ensures applications == old(applications) && resumeAnalyses == old(resumeAnalyses)
    {
      user := User(id, insert.username, insert.email, insert.password,
                   StringOrNull(insert.firstName), StringOrNull(insert.lastName), now);
      users := users.Set(id, user);
    }

    /** `createResume`: stores a new résumé; an empty content and a zero score become null. */
    method CreateResume(id: Id, now: Timestamp, insert: InsertResume) returns (resume: Resume)
      requires Valid()
      modifies this
      ensures Valid()
      ensures resume == Resume(id, insert.userId, insert.fileName, insert.filePath,
                               StringOrNull(insert.content), insert.skills, insert.experience,
                               insert.education, IntOrNull(insert.analysisScore), insert.keywords, now)
      ensures resumes == old(resumes).Set(id, resume)
      ensures users == old(users) && internships == old(internships)
      ensures applications == old(applications) && resumeAnalyses == old(resumeAnalyses)
    {
      resume := Resume(id, insert.userId, insert.fileName, insert.filePath,
                       StringOrNull(insert.content), insert.skills, insert.experience,
                       insert.education, IntOrNull(insert.analysisScore), insert.keywords, now);
      resumes := resumes.Set(id, resume);
    }

    /** `getResumesByUserId`: that user's résumés in insertion order. */
    function GetResumesByUserId(userId: Id): (r: seq<Resume>)
      reads this
      requires Valid()
      ensures IsSubsequence(r, resumes.Values())
      ensures forall i :: 0 <= i < |r| ==> r[i].userId == userId
      ensures forall i :: 0 <= i < |resumes.Values()| && resumes.Values()[i].userId == userId ==> resumes.Values()[i] in r
    {
      FilterIsSubsequence(resumes.Values(), (res: Resume) => res.userId == userId);
      Filter(resumes.Values(), (res: Resume) => res.userId == userId)
    }

    /**
     * `updateResumeAnalysis`: on a stored résumé, the properties present in the patch
     * replace its own and it keeps its place; on an unknown id nothing changes.
     */
    method UpdateResumeAnalysis(resumeId: Id, patch: ResumePatch) returns (r: Option<Resume>)
      requires Valid()
      modifies this
      ensures Valid()
      ensures old(resumes.Get(resumeId)).None? ==> r.None? && resumes == old(resumes)
      ensures old(resumes.Get(resumeId)).Some? ==>
        && r == Some(ApplyPatch(old(resumes.Get(resumeId)).value, patch))
        && resumes == old(resumes).Set(resumeId, r.value)
        && resumes.keys == old(resumes.keys)
      ensures users == old(users) && internships == old(internships)
      ensures applications == old(applications) && resumeAnalyses == old(resumeAnalyses)
    {
      var resume := resumes.Get(resumeId);
      if resume.Some? {
        var updated := ApplyPatch(resume.value, patch);
        resumes := resumes.Set(resumeId, updated);
        r := Some(updated);
      } else {
        r := None;
      }
    }

    /** `getAllInternships`: the active postings in insertion order. */
    function AllInternships(): (r: seq<Internship>)
      reads this
      requires Valid()
      ensures IsSubsequence(r, internships.Values())
      ensures forall i :: 0 <= i < |r| ==> r[i].isActive
      ensures forall i :: 0 <= i < |internships.Values()| && internships.Values()[i].isActive ==> internships.Values()[i] in r
    {
      FilterIsSubsequence(internships.Values(), IsActive);
      Filter(internships.Values(), IsActive)
    }

    /**
     * `searchInternships`: the active postings that pass the query, location and
     * industry tests, in insertion order.
     */
    function SearchInternships(query: string, location: string, industry: string): (r: seq<Internship>)
      reads this
      requires Valid()
      ensures IsSubsequence(r, AllInternships())
      ensures forall i :: 0 <= i < |r| ==>
        MatchesQuery(r[i], query) && MatchesLocation(r[i], location) && MatchesIndustry(r[i], industry)
      ensures forall i :: 0 <= i < |AllInternships()| ==>
        var p := AllInternships()[i];
        MatchesQuery(p, query) && MatchesLocation(p, location) && MatchesIndustry(p, industry) ==> p in r
      ensures (query == "" && (location == "" || location == "All Locations")
               && (industry == "" || industry == "All Industries")) ==> r == AllInternships()
    {
      var all := AllInternships();
      var filter := SearchFilter(query, location, industry);
      FilterIsSubsequence(all, filter);
      assert (query == "" && (location == "" || location == "All Locations")
              && (industry == "" || industry == "All Industries")) ==> Filter(all, filter) == all by {
        if query == "" && (location == "" || location == "All Locations")
           && (industry == "" || industry == "All Industries") {
          UnfilteredSearch(all, query, location, industry);
        }
      }
      Filter(all, filter)
    }

    /**
     * `getMatchingInternships`: nothing for an unknown résumé; otherwise every active
     * posting ranked against the résumé's skills (`skills || []`).
     */
    function MatchingInternships(resumeId: Id): (r: seq<InternshipWithMatch>)
      reads this
      requires Valid()
      ensures resumes.Get(resumeId).None? ==> r == []
      ensures resumes.Get(resumeId).Some? ==>
        r == RankMatches(resumes.Get(resumeId).value.skills.GetOr([]), AllInternships())
    {
      match resumes.Get(resumeId)
      case None => []
      case Some(resume) => RankMatches(resume.skills.GetOr([]), AllInternships())
    }

    /**
     * `createApplication`: stores a new application under `id`. A missing or empty
     * status becomes "pending", a zero or NaN score null, an empty cover letter null.
     */
    method CreateApplication(id: Id, now: Timestamp, insert: InsertApplication) returns (app: Application)
      requires Valid()
      modifies this
      ensures Valid()
      ensures app == Application(id, insert.userId, insert.internshipId, insert.resumeId,
                                 StatusOrPending(insert.status), NumberOrNull(insert.matchScore),
                                 StringOrNull(insert.coverLetter), now, now)
      ensures applications == old(applications).Set(id, app)
      ensures applications.Get(id) == Some(app)
      ensures forall other :: other != id ==> applications.Get(other) == old(applications.Get(other))
      ensures old(applications.Get(id)).None? ==> applications.Values() == old(applications.Values()) + [app]
      ensures users == old(users) && resumes == old(resumes) && internships == old(internships)
      ensures resumeAnalyses == old(resumeAnalyses)
    {
      app := Application(id, insert.userId, insert.internshipId, insert.resumeId,
                         StatusOrPending(insert.status), NumberOrNull(insert.matchScore),
                         StringOrNull(insert.coverLetter), now, now);
      if applications.Get(id).None? {
        SetNewKey(applications, id, app);
      }
      applications := applications.Set(id, app);
    }

    /** The applications of one user, in insertion order. */
    function UserApplications(userId: Id): (r: seq<Application>)
      reads this
      requires Valid()
      ensures IsSubsequence(r, applications.Values())
      ensures forall app :: app in r ==> app.userId == userId && app in applications.Values()
      ensures forall app :: app in applications.Values() && app.userId == userId ==> app in r
    {
      FilterIsSubsequence(applications.Values(), OwnedBy(userId));
      Filter(applications.Values(), OwnedBy(userId))
    }

    /**
     * `getApplicationsByUserId`: the user's applications whose posting and résumé
     * both exist, joined with them, most recently applied first (ties in insertion order).
     */
    method GetApplicationsByUserId(userId: Id) returns (r: seq<ApplicationWithDetails>)
      requires Valid()
      ensures r == SortDesc(WithDetails(UserApplications(userId), internships, resumes), AppliedAtOf)
      ensures SortedDesc(r, AppliedAtOf)
      ensures forall k :: 0 <= k < |r| ==>
        && r[k].application.userId == userId
        && r[k].application in applications.Values()
        && internships.Get(r[k].application.internshipId) == Some(r[k].internship)
        && resumes.Get(r[k].application.resumeId) == Some(r[k].resume)
    {
      var userApps := UserApplications(userId);
      var joined := JoinDetails(userApps, internships, resumes);
      r := SortDesc(joined, AppliedAtOf);
      SortedJoinMembers(userApps, internships, resumes);
    }

    /** `getApplicationById`: the application joined with its posting and résumé, if all three exist. */
    function GetApplicationById(id: Id): (r: Option<ApplicationWithDetails>)
      reads this
      ensures r.Some? ==>
        && applications.Get(id) == Some(r.value.application)
        && internships.Get(r.value.application.internshipId) == Some(r.value.internship)
        && resumes.Get(r.value.application.resumeId) == Some(r.value.resume)
      ensures r.None? ==> applications.Get(id).None? || Details(applications.Get(id).value, internships, resumes).None?
    {
      match applications.Get(id)
      case None => None
      case Some(app) => Details(app, internships, resumes)
    }

    /**
     * `updateApplicationStatus`: on a stored application, sets any status string and
     * the update time and keeps everything else; on an unknown id nothing changes.
     */
    method UpdateApplicationStatus(id: Id, status: string, now: Timestamp) returns (r: Option<Application>)
      requires Valid()
      modifies this
      ensures Valid()
      ensures old(applications.Get(id)).None? ==> r.None? && applications == old(applications)
      ensures old(applications.Get(id)).Some? ==>
        && r == Some(old(applications.Get(id)).value.(status := status, updatedAt := now))
        && applications == old(applications).Set(id, r.value)
        && applications.keys == old(applications.keys)
      ensures users == old(users) && resumes == old(resumes) && internships == old(internships)
      ensures resumeAnalyses == old(resumeAnalyses)
    {
      var app := applications.Get(id);
      if app.Some? {
        var updated := app.value.(status := status, updatedAt := now);
        applications := applications.Set(id, updated);
        r := Some(updated);
      } else {
        r := None;
      }
    }

    /** `createResumeAnalysis`: stores a new analysis; an empty internship id and zero scores become null. */
    method CreateResumeAnalysis(id: Id, now: Timestamp, insert: InsertResumeAnalysis) returns (analysis: ResumeAnalysis)
      requires Valid()
      modifies this
      ensures Valid()
      ensures analysis == ResumeAnalysis(id, insert.resumeId, StringOrNull(insert.internshipId),
                                         insert.missingKeywords, insert.suggestions,
                                         IntOrNull(insert.technicalSkillsScore), IntOrNull(insert.experienceScore),
                                         IntOrNull(insert.achievementsScore), IntOrNull(insert.overallScore), now)
      ensures resumeAnalyses == old(resumeAnalyses).Set(id, analysis)
      ensures users == old(users) && resumes == old(resumes) && internships == old(internships)
      ensures applications == old(applications)
    {
      analysis := ResumeAnalysis(id, insert.resumeId, StringOrNull(insert.internshipId),
                                 insert.missingKeywords, insert.suggestions,
                                 IntOrNull(insert.technicalSkillsScore), IntOrNull(insert.experienceScore),
                                 IntOrNull(insert.achievementsScore), IntOrNull(insert.overallScore), now);
      resumeAnalyses := resumeAnalyses.Set(id, analysis);
    }

    /**
     * `getResumeAnalysis`: the first stored analysis of the résumé, restricted to the
     * given internship unless `internshipId` is empty.
     */
    function GetResumeAnalysis(resumeId: Id, internshipId: string): (r: Option<ResumeAnalysis>)
      reads this
      requires Valid()
      ensures r.None? <==> forall i :: 0 <= i < |resumeAnalyses.Values()| ==>
        var a := resumeAnalyses.Values()[i];
        !(a.resumeId == resumeId && (internshipId == "" || a.internshipId == Some(internshipId)))
      ensures r.Some? ==>
        && r.value.resumeId == resumeId
        && (internshipId == "" || r.value.internshipId == Some(internshipId))
        && r.value == resumeAnalyses.Values()[FirstIndex(resumeAnalyses.Values(), AnalysisFor(resumeId, internshipId))]
    {
      FindFirst(resumeAnalyses.Values(), AnalysisFor(resumeId, internshipId))
    }
  }
}
