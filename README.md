# Résumé analysis and internship matching — a Dafny model

This project models the server core of an internship-matching web application:

- **Résumé analysis** (`server/routes.ts`):
  - keyword skill extraction against a fixed list of 33 skill words;
  - regular-expression section extraction for experience and education;
  - the capped ATS score;
  - the rule-ordered suggestion list;
  - the upload handler's sub-scores and response;
  - the create-application match score;
  - the application statistics.
- **The in-memory store `MemStorage`** (`server/storage.ts`):
  - five JavaScript `Map` tables with their create, update and lookup operations;
  - the active catalogue and its three-way search;
  - the two-directional `calculateMatchScore`;
  - ranked recommendations with missing keywords, stable-sorted by score;
  - the joined, date-sorted application list.

Modules:

| module | file | contents |
|---|---|---|
| `Wrappers` | wrappers.dfy | `Option` |
| `Seqs` | seqs.dfy | `Array.prototype.filter`, `find`/`findIndex`, and a stable descending sort with its stability, sortedness and permutation proofs |
| `Strings` | strings.dfy | ASCII `toLowerCase`, `includes`, `trim`, `split('\n')` |
| `JsMath` | js_math.dfy | `Math.min`, `Math.round(m / n * 100)` as round-half-up integer division, NaN for 0/0, and `x \|\| null` on numbers |
| `OrderedMaps` | ordered_maps.dfy | a JavaScript `Map`: a finite map plus the insertion order of its keys, which is the order `values()` iterates in |
| `Schema` | schema.dfy | the record types and the `\|\| null` conversions of strings and integers |
| `Storage` | storage.dfy | the matching functions and the `MemStorage` class, whose methods update its five tables |
| `Routes` | routes.dfy | the analysis pipeline and the handlers' arithmetic; the upload, create-application and statistics handlers work on a `MemStorage` |

How the source is represented:

- Record ids and timestamps are parameters of the operations that create records.
- The text of an uploaded file is a parameter of the upload handler.
- The store's constructor takes the seed catalogue as a parameter. The application's constructor takes no argument and builds its own seed list in `initializeData`; that list is `Storage.SampleInternships(now)`.
- `calculateATSScore` and `generateSuggestions` update a local variable step by step, so they are methods. Each is proved equal to a function (`AtsScore`, `SuggestionsFor`), and the promised properties are proved about that function.
- The loops of `initializeData` and `getApplicationsByUserId` are methods with loop invariants.

## Model

| member | source | states |
|---|---|---|
| Seqs.Filter | server/storage.ts:203 | the kept elements all come from the input and satisfy the predicate, and every element that satisfies it is kept |
| Seqs.FilterIsSubsequence | server/routes.ts:70-72 | filtering keeps the original order (the result is a sub-sequence) |
| Seqs.FilterDistinct | server/routes.ts:70-72 | filtering a list without duplicates gives a list without duplicates |
| Seqs.FilterComplement | server/storage.ts:241-243 | filtering by a predicate and by its negation splits the list: the two lengths add up to the whole |
| Seqs.FilterWeaker | server/storage.ts:256-261 | a weaker predicate keeps at least as many elements |
| Seqs.FindFirst | server/storage.ts:360-363 | `find` returns nothing exactly when no element satisfies the predicate, and otherwise the first one that does |
| Seqs.SortDesc | server/storage.ts:250 | the sort by descending key returns a permutation of its input in non-increasing key order |
| Seqs.SortDescStable | server/storage.ts:250 | the sort is stable: elements with equal keys keep their relative order |
| Seqs.SortDescCount | server/storage.ts:303-305 | sorting changes no count: as many elements satisfy any predicate after the sort as before |
| Strings.Lower | server/routes.ts:71 | lowercasing keeps the length and folds each ASCII capital to its small letter |
| Strings.ContainsIff | server/routes.ts:71 | `includes` holds exactly when the needle occurs at some position |
| Strings.ContainsTransitive | server/routes.ts:71 | a string containing `t` contains every substring of `t` |
| Strings.ContainsIgnoreCaseLowered | server/storage.ts:215 | lowering the needle before an ignore-case search changes nothing |
| Strings.TrimEmptyIffBlank | server/routes.ts:79 | `line.trim().length > 0` fails exactly when the line is all white space |
| Strings.SplitLines | server/routes.ts:79 | the pieces of `split('\n')` contain no '\n' and join back to the input |
| Strings.JoinLinesContains | server/routes.ts:79 | every piece of a split occurs verbatim in the split string |
| JsMath.RoundPercent | server/storage.ts:263 | `Math.round(m / n * 100)` is the integer r with 2nr ≤ 200m + n < 2nr + 2n; it lies in 0..100 when m ≤ n, is 0 for m = 0 and 100 for m = n |
| JsMath.RoundPercentMonotone | server/storage.ts:263 | more matched skills never give a lower rounded percentage |
| JsMath.Percent | server/routes.ts:311 | the percentage is NaN exactly when the denominator is 0, and otherwise the rounded value in 0..100 |
| JsMath.NumberOrNull | server/storage.ts:275 | `matchScore \|\| null` is null exactly for 0 and NaN, and otherwise the number itself |
| Schema.StringOrNull | server/storage.ts:155-156 | `s \|\| null` on a string is null exactly for a missing or empty string |
| Schema.IntOrNull | server/storage.ts:175 | `n \|\| null` on an integer is null exactly for a missing value or 0 |
| OrderedMaps.OrderedMap.Set | server/storage.ts:159 | `map.set(k, v)` keeps the map well formed, makes `get(k)` return v and leaves every other key's entry alone |
| OrderedMaps.OrderedMap.Get | server/storage.ts:188 | `map.get(k)` finds a value exactly when k is one of the map's keys, and then it is the value stored under k |
| OrderedMaps.OrderedMap.Values | server/storage.ts:203 | `Array.from(map.values())` lists, position by position, the value stored under each key in insertion order |
| OrderedMaps.SetNewKey | server/storage.ts:280 | setting a new key appends its value to the iteration order |
| OrderedMaps.SetNewKeyExtends | server/storage.ts:130-132 | setting a new key to the last of a list of values, after the others are listed, completes the listing of that list |
| OrderedMaps.SetExistingKey | server/storage.ts:195 | setting a present key replaces its value in place and keeps the iteration order |
| OrderedMaps.GetInValues | server/storage.ts:285 | every stored value is among the iterated values |
| Storage.MatchedSkills | server/storage.ts:256-261 | the matched skills are the order-preserving sub-sequence of exactly those job skills that some user skill contains or is contained in, ignoring case |
| Storage.CalculateMatchScore | server/storage.ts:253-264 | 0 when either list is empty; otherwise the rounded percentage of job skills that some user skill contains or is contained in (ignoring case, duplicates counted), at most 100, and 100 when every job skill counts |
| Storage.MissingKeywords | server/storage.ts:241-243 | the missing keywords are the order-preserving sub-sequence of exactly those job skills that no user skill contains |
| Storage.ContainedSkills | server/routes.ts:306-310 | the application-time matched skills are the order-preserving sub-sequence of exactly those job skills that some résumé skill contains, ignoring case |
| Storage.ContainedPlusMissing | server/storage.ts:241-243 | the job skills contained in some user skill plus the missing keywords number exactly the job skills |
| Storage.ContainedWithinMatched | server/storage.ts:256-261 | the one-directional containment test never counts more job skills than the two-directional one |
| Storage.MissingAndMatched | server/storage.ts:241-261 | the match score counts at least the job skills that are not missing: matched ≥ \|jobSkills\| − \|missingKeywords\| |
| Storage.NoSkillsAllMissing | server/storage.ts:236-243 | with an empty résumé skill list every job skill is missing |
| Storage.DuplicatesCountSeparately | server/storage.ts:256-261 | a repeated job skill is counted once per occurrence |
| Storage.Annotate | server/storage.ts:238-249 | the `map` step gives, for every posting in order, its match score and missing keywords |
| Storage.RankMatches | server/storage.ts:238-250 | the ranked list is a permutation of the annotated postings with non-increasing scores, each at most 100, and postings with equal scores stay in catalogue order |
| Storage.MatchesQuery | server/storage.ts:214-218 | the query test: an empty query, or the query found, ignoring case, in the title, company, description or one of the skills |
| Storage.MatchesLocation | server/storage.ts:220-222 | the location test: no location, exactly "All Locations", the location found in the posting's location ignoring case, or exactly "Remote" for a remote posting |
| Storage.MatchesIndustry | server/storage.ts:224-225 | the industry test: no industry, exactly "All Industries", or the industry found, ignoring case, in the posting's industry; a posting without an industry passes only the first two |
| Storage.QueryCaseIgnored | server/storage.ts:214-218 | the query test gives the same answer for a query and for its lower-case form |
| Storage.UnfilteredSearch | server/storage.ts:214-225 | with no query, no location (or "All Locations") and no industry (or "All Industries") every posting passes the search |
| Storage.Details | server/storage.ts:291-300 | an application is joined exactly when its posting and its résumé are both stored, and then with those two records |
| Storage.WithDetails | server/storage.ts:288-301 | the join keeps exactly the applications whose posting and résumé are both stored, each joined with those records |
| Storage.WithDetailsExact | server/storage.ts:288-301 | the join lists each joinable application exactly once, in the order of the input, joined with its posting and résumé; so its length is the number of joinable applications |
| Storage.JoinDetails | server/storage.ts:288-301 | the join loop computes the join, one application at a time |
| Storage.SortedJoinMembers | server/storage.ts:303-305 | after the date sort every entry still belongs to a listed application, joined with its stored posting and résumé |
| Storage.ApplyPatch | server/storage.ts:194 | `{ ...resume, ...analysis }`: each property present in the partial record replaces the résumé's, the others are kept |
| Storage.ApplyNoChanges | server/storage.ts:194 | spreading an empty partial résumé over a résumé changes nothing |
| Storage.ApplyPatchIdempotent | server/storage.ts:194 | applying the same partial update twice is applying it once |
| Storage.ApplyPatchTwice | server/storage.ts:194 | two partial updates in a row are one update with the merged partial record, the later properties winning |
| Storage.StatusOrPending | server/storage.ts:274 | a missing or empty status becomes "pending"; any other status is kept |
| Storage.SetEach | server/storage.ts:130-132 | after the seed loop every posting's id is stored and every other id is untouched |
| Storage.SetEachValues | server/storage.ts:130-132 | seeding postings with pairwise different ids that are not yet stored lists them after the stored values, in seed order |
| Storage.SeededCatalogueOrder | server/storage.ts:130-132 | on an empty table with pairwise different ids the catalogue lists exactly the seed postings, in seed order |
| Storage.SetEachLastWins | server/storage.ts:130-132 | a seed posting that no later posting with the same id overwrites is the one stored under its id |
| Storage.MemStorage.constructor | server/storage.ts:34-45 | the store starts with four empty tables and the seed postings set one after the other |
| Storage.MemStorage.SetInternships | server/storage.ts:130-132 | the seed loop sets every posting under its id, in order, and changes no other table |
| Storage.MemStorage.CreateUser | server/storage.ts:148-161 | the new user is stored under the given id, with empty first and last names as null, and nothing else changes |
| Storage.MemStorage.CreateResume | server/storage.ts:164-181 | the new résumé is stored under the given id, with an empty content and a zero score as null, and nothing else changes |
| Storage.MemStorage.GetResumesByUserId | server/storage.ts:183-185 | exactly that user's résumés, in insertion order |
| Storage.MemStorage.UpdateResumeAnalysis | server/storage.ts:191-199 | an unknown id gives nothing and changes nothing; otherwise the present properties replace the résumé's and it keeps its place in the table |
| Storage.MemStorage.AllInternships | server/storage.ts:202-204 | exactly the active postings, in insertion order |
| Storage.MemStorage.SearchInternships | server/storage.ts:210-229 | an order-preserving sub-list of the active postings: exactly those that pass the query test (title, company, description or a skill), the location test ("Remote" also accepting remote postings) and the industry test; with no filters, all active postings |
| Storage.MemStorage.MatchingInternships | server/storage.ts:231-251 | nothing for an unknown résumé; otherwise every active posting ranked against the résumé's skills (`skills \|\| []`) |
| Storage.MemStorage.CreateApplication | server/storage.ts:267-282 | the new application is stored under the given id with status defaulting to "pending", a zero or NaN score as null and an empty cover letter as null; no other entry changes, and a new id is appended to the iteration order |
| Storage.MemStorage.UserApplications | server/storage.ts:285-286 | an order-preserving sub-list of the stored applications holding exactly that user's applications |
| Storage.MemStorage.GetApplicationsByUserId | server/storage.ts:284-306 | that user's applications whose posting and résumé both exist, joined with them and sorted by application time, newest first |
| Storage.MemStorage.GetApplicationById | server/storage.ts:308-324 | the application joined with its stored posting and résumé, or nothing when any of the three is missing |
| Storage.MemStorage.UpdateApplicationStatus | server/storage.ts:326-338 | an unknown id gives nothing and changes nothing; otherwise any status string and the update time are set, everything else is kept, and the entry keeps its place |
| Storage.MemStorage.CreateResumeAnalysis | server/storage.ts:341-357 | the new analysis is stored under the given id, with an empty internship id and zero scores as null, and nothing else changes |
| Storage.MemStorage.GetResumeAnalysis | server/storage.ts:359-364 | nothing when no stored analysis fits; otherwise the first analysis of the résumé, restricted to the internship unless none is given |
| Routes.KeywordsIn | server/routes.ts:61-73 | the extracted keywords are an order-preserving sub-list of the keyword list, without duplicates when the list has none, and a keyword is extracted exactly when the text contains it, ignoring case |
| Routes.ExtractSkills | server/routes.ts:61-73 | the extracted skills are an order-preserving sub-list of the 33 keywords without duplicates, and a keyword is extracted exactly when the text contains it, ignoring case |
| Routes.SkillKeywordsDistinct | server/routes.ts:62-68 | the 33 skill keywords are pairwise different, so extracted skills have no duplicates |
| Routes.KeywordExtracted | server/routes.ts:70-72 | a skill keyword found anywhere in the text, ignoring case, is extracted |
| Routes.ContainsPart | server/routes.ts:70-72 | a text that contains a word, ignoring case, contains every part of that word |
| Routes.JavaScriptYieldsJava | server/routes.ts:62-72 | there is no word boundary: a text mentioning JavaScript yields the skill Java |
| Routes.MySqlYieldsSql | server/routes.ts:62-72 | a text mentioning MySQL yields the skill SQL |
| Routes.PostgreSqlYieldsSql | server/routes.ts:62-72 | a text mentioning PostgreSQL yields the skill SQL |
| Routes.FirstOccurrence | server/routes.ts:77 | the first position from a start where the word occurs, ignoring case, or none |
| Routes.SectionEnd | server/routes.ts:77 | the lazy group stops at the first position where a terminator starts, ignoring case, or at the end of the text |
| Routes.SectionSpan | server/routes.ts:77 | the regular expression matches exactly when the header occurs; the captured block starts right after the first occurrence of the header and ends at the nearest later terminator or the end of the text |
| Routes.PieceOfText | server/routes.ts:79 | each split piece of the captured block has no '\n' and occurs verbatim in the text |
| Routes.ExtractSection | server/routes.ts:76-91 | [] without the header; otherwise exactly the non-blank pieces of the captured block, in order and with repeats; every line has a non-white-space character, no '\n', and occurs untrimmed in the text |
| Routes.ExtractExperience | server/routes.ts:75-81 | `ExtractSection` with the header "EXPERIENCE" and the terminators "EDUCATION" and "SKILLS" |
| Routes.ExtractEducation | server/routes.ts:84-90 | `ExtractSection` with the header "EDUCATION" and the terminators "EXPERIENCE" and "SKILLS" |
| Routes.AnyMentionOpensSection | server/routes.ts:77 | any occurrence of the header, even inside a longer word such as "Experienced", opens a section starting no later than right after it |
| Routes.AtsScore | server/routes.ts:94-107 | the score is min(5·skills, 40) + min(8·experience, 40) + min(10·education, 20), at most 100, 0 for empty input and 100 from 8 skills, 5 experience and 2 education lines on |
| Routes.AtsScoreMonotone | server/routes.ts:94-107 | more skills, experience lines or education lines never lower the score |
| Routes.CalculateAtsScore | server/routes.ts:94-107 | the step-by-step computation yields the capped score, in 0..100 |
| Routes.SuggestionsFor | server/routes.ts:110-148 | the critical tip appears iff the score is below 60, the skills tip iff there are fewer than 8 skills, the experience tip iff there are fewer than 3 experience lines, in rule order, always ending with the ATS tip; hence 1 to 4 tips |
| Routes.OnlyRuleTips | server/routes.ts:110-148 | every tip comes from one of the four rules; there are no others |
| Routes.AllRulesFire | server/routes.ts:110-148 | with no skills, no experience and a score of 0 every rule fires, and the upload shows the first three tips |
| Routes.GenerateSuggestions | server/routes.ts:110-148 | pushing the tips rule by rule yields the rule-ordered list |
| Routes.UserIdOrDefault | server/routes.ts:159 | a missing or empty user id becomes "default-user" |
| Routes.TechnicalSkillsScore | server/routes.ts:191 | min(10·skills, 100): 100 exactly from 10 skills on |
| Routes.ExperienceScore | server/routes.ts:192 | min(15·lines, 100): 100 exactly from 7 experience lines on |
| Routes.AchievementsScore | server/routes.ts:193 | 80 exactly when the overall score exceeds 70, otherwise 40 |
| Routes.TopSuggestions | server/routes.ts:203 | `slice(0, 3)`: the first min(3, n) suggestions |
| Routes.AnalyzeText | server/routes.ts:165-168 | the analysis holds the extracted skills, experience and education of the text, the ATS score of their three counts (in 0..100) and the rule-ordered tips for the skill and experience counts and that score (1 to 4 of them) |
| Routes.UploadedResume | server/routes.ts:171-181 | the stored résumé has the file's name and path, the text as content (null when empty), the extracted skills as both skills and keywords, the sections, and the score (null when 0) |
| Routes.UploadedAnalysis | server/routes.ts:187-195 | the stored analysis has no posting, no missing keywords and every suggestion; its technical score is min(10·skills, 100), its experience score min(15·lines, 100) and its overall score the ATS score, each null when 0; its achievements score is 80 above 70, otherwise 40 |
| Routes.StoreUpload | server/routes.ts:171-197 | the upload stores the résumé (content, skills as keywords, score) and its analysis (no missing keywords, every suggestion, the three sub-scores) and changes no other table |
| Routes.HandleUpload | server/routes.ts:153-213 | without a file nothing is stored; otherwise the résumé and its analysis are stored and the response carries the score, the first three suggestions, the skills and the two line counts |
| Routes.KeywordsInNone | server/routes.ts:70-72 | a text containing no keyword yields no keywords |
| Routes.NoSkillsMentioned | server/routes.ts:61-73 | a text in which no skill keyword occurs, ignoring case, yields no skills |
| Routes.EmptyTextAnalysis | server/routes.ts:165-168 | a text mentioning no skill and neither header yields no skills and no lines, scores 0 and triggers every rule |
| Routes.ListInternships | server/routes.ts:246-264 | the listing's branch between search and full catalogue always gives the search result |
| Routes.ApplicationMatchScore | server/routes.ts:300-312 | 0 unless the résumé, the posting and both skill lists exist; otherwise NaN exactly for an empty job skill list, and else the rounded percentage of job skills that are not missing keywords |
| Routes.ApplicationScoreWithinMatchScore | server/routes.ts:304-312 | the application-time score never exceeds the store's two-directional match score for the same skills |
| Routes.FullApplicationScore | server/routes.ts:304-312 | when every job skill is contained in some résumé skill the application-time score is 100 |
| Routes.HandleCreateApplication | server/routes.ts:296-324 | the computed score replaces the request's own and the application is stored with it (0 and NaN stored as null) |
| Routes.CountStatus | server/routes.ts:362-366 | a per-status count never exceeds the number of applications |
| Routes.StatusCountsBounded | server/routes.ts:362-366 | the five per-status counts add up to at most the total |
| Routes.Stats | server/routes.ts:357-378 | the total and one count per status; the response rate is the rounded percentage of non-pending applications, in 0..100, 0 without applications or when all are pending, and 100 when none is pending |
| Routes.SameCountsSameStats | server/routes.ts:360-371 | the statistics depend only on the number of applications and the five counts |
| Routes.StatsIgnoreSortOrder | server/routes.ts:360-371 | the date sort of the application list does not change the statistics |
| Routes.HandleStats | server/routes.ts:357-378 | the statistics of the user's joined applications ("default-user" when none is given), whatever their order |

## Left out

- HTTP, Express routing, the multer upload configuration, status codes and JSON responses are not modelled. Only the values the handlers compute and store are. The résumé listing, analysis lookup, matches, application list and status-update handlers only forward to store operations that are modelled.
- Request validation with zod is not modelled. `Routes.HandleCreateApplication` takes the parsed request record.
- `extractTextFromPDF` is a stub that returns a constant text. The upload handler takes the extracted text as a parameter instead.
- `randomUUID` and `new Date()` are not modelled. Ids and timestamps are parameters; a reused id overwrites its entry, as `Map.set` does.
- `async`/`await` is not modelled. Every store operation is a synchronous method.
- The floating-point behaviour of `Math.round(m / n * 100)` is not modelled. It is exact round-half-up integer arithmetic; binary-float deviations at exact .5 boundaries are not represented.
- `Strings.Lower` folds ASCII letters only. JavaScript's `toLowerCase` also folds non-ASCII letters.
- Strings are sequences of Unicode characters, not UTF-16 code units.
- `Storage.SampleInternships` has no proved properties about the contents of the five seed postings, because reasoning about their long literal strings exceeds the verifier's resource limit. The store's contract covers the seeding loop for any seed list.
- `Routes.ExtractExperience` and `Routes.ExtractEducation` carry no contracts of their own. They are one-line instances of `Routes.ExtractSection`, whose contract states their properties for any header and terminators.
- `Storage.MemStorage.CreateApplication`: takes one timestamp for both `appliedAt` and `updatedAt`. The source calls `new Date()` twice (server/storage.ts:277-278), and the two readings may differ by a millisecond.
- A partial résumé whose properties are present but `undefined` is not modelled. A `Schema.ResumePatch` property is either absent or present with a value.
- A PATCH request without a status is not modelled. The status-update handler would store `undefined`; here the status is always a string.
- `getUser`, `getUserByUsername`, `getUserByEmail`, `getInternshipById` and `getResumeById` are plain map lookups or `find`. The model uses `OrderedMap.Get` and `Seqs.FindFirst` directly instead of wrapping them.
- The client React pages and components are not modelled. This includes the fallback mock filter in the jobs page and the presentation helpers.
