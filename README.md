# Manthan backend: a verified model of its core

This project models the core of the Manthan recruitment backend in Dafny and
proves properties of the model. Recruiters upload resumes into folders. A
background worker ingests each resume: it extracts the text and links of the
PDF, uploads the file and records the result with bounded retries. A report
for a job fans out one applicant per processed resume of a folder. Each
applicant is verified against their social profiles, and each project URL is
checked for threats and scored for SEO.

The model has one module per core source file, plus shared modules:

- **Wrappers**: `Option`.
- **Text**: the JavaScript string operations that are used: `startsWith`, `endsWith`, `includes`, `trim` and decimal printing.
- **Collections**: `[...new Set(xs)]`, `$addToSet` and `filter(x => x !== id)` on sequences.
- **Records**: the five mongoose documents, request ids, and handler responses.
- **DocumentStore**: the class `Store`, with one map per collection and a fresh-id counter. Its `Valid()` invariant says:
  - every key is below the counter;
  - every folder's `processedFiles` is duplicate-free and contained in its `totalFiles`;
  - every resume is listed in its folder's `totalFiles`.
- **Automation**: the ingestion worker.
- **Reports**, **Folders**, **Jobs**, **Resumes**, **Applicants**: the request handlers.
- **Extract**, **Social**, **Seo**: the utilities.

Handlers and the worker are methods that change the store in place. Each one
states its whole new state and every error answer. The pure rules are
functions, with lemmas that relate them to independent descriptions.

Foreign services are parameters of the operations that use them:

- **PDF parsing:** the parser's text and info, and each page's annotations.
- **Cloudinary:** the upload result, and which deletions throw.
- **GitHub and the other platforms:** each repository's tree and package files, and how each platform fetch settles.
- **Safe Browsing:** the lookup's answer.
- **HTTP fetch and HTML selectors:** the fetched page's selector values.
- **`new URL`:** the parse or resolution outcome.
- **Database writes in the worker:** whether each write throws.

A request id is `Absent`, `Malformed` (rejected by `isValidObjectId`) or a
well-formed `Oid`.

Where the design description and the code differ, the model follows the code:

- `createReport` computes no priority hash and stores no priority.
- Its duplicate key is (job, folder, user), without the priority.
- Folders belong to their creator, but `updateFolder`, `deleteFolder` and `uploadResume` never consult the caller. Any caller may rename or delete an existing folder, with its resumes and their uploaded files, or upload into it.

## Model

| member | source | states |
|---|---|---|
| Collections.AddToSet | BACKEND/src/controllers/automationController.ts:63-69 | `$addToSet` keeps the old list as a prefix, adds at most one element, contains exactly the old elements and `x`, and keeps a duplicate-free list duplicate-free |
| Collections.AddToSetIdempotent | BACKEND/src/controllers/automationController.ts:66 | adding the same id twice is adding it once |
| Collections.Dedup | BACKEND/src/utils/extract.ts:12-17 | `[...new Set(s)]` is duplicate-free, has exactly the elements of `s`, and is no longer than `s` |
| Collections.DedupFirstOccurrenceOrder | BACKEND/src/utils/extract.ts:12-17 | deduplication keeps elements in the order of their first occurrence |
| Collections.DedupOfDistinct | BACKEND/src/utils/extract.ts:12-17 | a duplicate-free sequence is its own deduplication |
| Collections.RemoveAll | BACKEND/src/controllers/reportController.ts:278-280 | the filter removes every occurrence of the id, keeps the count of every other element, and shortens the list by the number of occurrences |
| Collections.RemoveAllConcat | BACKEND/src/controllers/reportController.ts:278-280 | filtering distributes over concatenation, so kept ids stay in order |
| Text.ContainsIff | BACKEND/src/utils/seo.ts:90 | the left-to-right `includes` scan is true exactly when the part occurs at some position |
| Text.Contains | BACKEND/src/utils/seo.ts:90 | `includes` holds whenever the part is a prefix, and only when the part is no longer than the string |
| Text.Trim | BACKEND/src/controllers/folderController.ts:19 | `trim` is no longer than its input, is empty iff the input is all whitespace, and otherwise neither begins nor ends with whitespace |
| Text.TrimEmptyIff | BACKEND/src/controllers/folderController.ts:19 | `title.trim()` is empty exactly when every character is JavaScript whitespace |
| Text.TrimStartDropsWhitespace | BACKEND/src/controllers/folderController.ts:19 | every character the start of `trim` cuts away is whitespace |
| Text.TrimEndDropsWhitespace | BACKEND/src/controllers/folderController.ts:19 | every character the end of `trim` cuts away is whitespace |
| Text.TrimIsInfix | BACKEND/src/controllers/folderController.ts:19 | `s.trim()` is the contiguous piece `s[i..j]` of `s` that starts where `trimStart` stops, with only whitespace before `i` and after `j` |
| Text.TrimNoWhitespace | BACKEND/src/utils/extract.ts:15 | trimming a string that has no whitespace leaves it unchanged |
| Text.DecimalString | BACKEND/src/controllers/reportController.ts:55 | the rendering of a total is a non-empty string of decimal digits, one digit exactly for values below 10 |
| Text.DecimalStringValue | BACKEND/src/controllers/reportController.ts:55 | the printed digits, read as a decimal number, are exactly the total, with no leading zero |
| DocumentStore.AddProcessed | BACKEND/src/controllers/automationController.ts:63-69 | `findByIdAndUpdate` with `$addToSet` changes only the named folder's `processedFiles`, adds the id there, is a no-op for a missing folder, and keeps folders well formed |
| DocumentStore.ReplaceResume | BACKEND/src/controllers/automationController.ts:71 | saving a resume that stays in its folder keeps the store invariants |
| DocumentStore.Store.SaveResume | BACKEND/src/controllers/automationController.ts:71 | `resume.save()` replaces that resume only and keeps the store valid |
| DocumentStore.Store.NewId | BACKEND/src/controllers/reportController.ts:130-135 | a created document gets an id that no stored document of any collection has |
| Automation.ErrorReason | BACKEND/src/controllers/automationController.ts:83 | `err.message \|\| "Unknown error"`: the message, or "Unknown error" when it is empty; never empty |
| Automation.AfterFailure | BACKEND/src/controllers/automationController.ts:82-88 | the error path adds exactly one retry, records the reason, sets FAILED iff retries ≥ maxRetries and PENDING otherwise, and changes no other field |
| Automation.WithResults | BACKEND/src/controllers/automationController.ts:46-61 | a successful attempt stores the text and metadata, the deduplicated union of annotation and text links, the upload's url and publicId, and DONE, and changes no other field |
| Automation.UploadGuardsResults | BACKEND/src/controllers/automationController.ts:40-61 | a failed upload ends the attempt with the upload's own error and the claimed document; the resume is DONE iff text, links and upload all succeed; `cloudinary` or `extracted` change only after a successful upload |
| Automation.SuccessfulAttempt | BACKEND/src/controllers/automationController.ts:46-71 | an attempt without error had every foreign step succeed, issued the folder update, and stores DONE, the upload's location, and duplicate-free links that are exactly the annotation and text links |
| Automation.FailedAttempt | BACKEND/src/controllers/automationController.ts:82-88 | a failure whose save succeeds stores one more retry, the same folder, the reason, and FAILED iff the retries reach the limit; the id was added to `processedFiles` iff only the final save failed |
| Automation.AddProcessedIdempotent | BACKEND/src/controllers/automationController.ts:63-69 | marking a resume processed twice leaves its folder as marking it once |
| Automation.RepeatedFailures | BACKEND/src/controllers/automationController.ts:82-88 | after k saved failures the resume has k more retries, the same limit, the last reason, and is FAILED iff the retries reach the limit |
| Automation.GivesUpAfterMaxRetries | BACKEND/src/controllers/automationController.ts:82-88 | a resume that keeps failing is PENDING after each of the first attempts and FAILED after max(1, maxRetries − retries) of them |
| Automation.Claim | BACKEND/src/controllers/automationController.ts:18-28 | the claim turns exactly one PENDING resume into PROCESSING and leaves every other resume unchanged, or reports that no resume is PENDING and changes nothing |
| Automation.Prepare | BACKEND/src/controllers/automationController.ts:33-61 | extraction and upload stop at the first throw and leave the claimed document; on success the document is DONE with `cloudinary` and `extracted` set |
| Automation.TryWrites | BACKEND/src/controllers/automationController.ts:61-71 | the folder update and then the save, each of which may throw: the resume is stored only if both succeed, and the folder is updated iff its update succeeded |
| Automation.SaveError | BACKEND/src/controllers/automationController.ts:82-94 | the catch block stores the error path's document when its save succeeds; a failed save leaves the store as it was and is swallowed |
| Automation.AttemptClaimed | BACKEND/src/controllers/automationController.ts:30-95 | after the claim, the store holds the persisted outcome of the try and catch blocks for that resume, and the folder records it iff the folder update ran |
| Automation.WorkerIteration | BACKEND/src/controllers/automationController.ts:13-98 | one loop turn: the result is an error before the claim iff the lock query throws, and no work iff it runs and nothing is PENDING; either changes nothing; otherwise a PENDING resume is claimed, and exactly it and its folder change, as stated by `RunTry` and `Persisted`; the whole turn is packaged as `IterStep` |
| Automation.AddProcessedPreserves | BACKEND/src/controllers/automationController.ts:63-69 | adding a listed resume to its folder's `processedFiles` keeps `processedFiles` duplicate-free and inside `totalFiles` |
| Automation.ProcessPendingResumes | BACKEND/src/controllers/automationController.ts:12-100 | a ghost trace of states chains the iterations (`Traced`): it starts at the old store, ends at the new one, and each consecutive pair is the turn `IterStep` describes for that step's foreign outcomes and result (the claimed resume persisted from its attempt, the folder updated iff the attempt reached it); the loop stops exactly at the first iteration that finds no PENDING resume, ending with none PENDING; an iteration errors before the claim iff its lock query throws; a first iteration whose lock runs while a resume is PENDING claims and attempts one; no resume is added or removed, and a DONE or FAILED resume is never touched |
| Reports.FieldFailure | BACKEND/src/controllers/reportController.ts:33-43 | within a field: missing before not-a-number before negative, each iff its condition |
| Reports.FirstFailure | BACKEND/src/controllers/reportController.ts:30-44 | the field loop fails iff some field fails, and only with a field error |
| Reports.FirstFailureIsFirst | BACKEND/src/controllers/reportController.ts:30-44 | the error reported is that of the first failing field |
| Reports.ValidatePriority | BACKEND/src/controllers/reportController.ts:20-59 | valid iff the object is present, every field is a non-negative number, and the total is exactly 100; a missing object throws a TypeError; a total error is raised only after every field passes and carries the total |
| Reports.ValidationPrecedence | BACKEND/src/controllers/reportController.ts:21-56 | fields are checked in the order skills, experience, location, qualifications, projects, and the first failing one names the error |
| Reports.BadTotalMessage | BACKEND/src/controllers/reportController.ts:47-56 | when every field passes and the total is not 100, the message carries the received total |
| Reports.IdRange | BACKEND/src/controllers/reportController.ts:149-152 | the applicant ids are first..first+n−1, one per processed file |
| Reports.IdRangeFresh | BACKEND/src/controllers/reportController.ts:141-152 | ids taken from a counter above every key of a collection are all new to it, so the inserted applicants are fresh |
| Reports.Fanout | BACKEND/src/controllers/reportController.ts:141-149 | the applicants after `insertMany` are exactly the old ones plus one fresh id per processed file |
| Reports.FanoutExact | BACKEND/src/controllers/reportController.ts:141-149 | `insertMany` adds exactly one PENDING applicant per processed file, in order, each with the resume, job, report and caller, and keeps every existing applicant |
| Reports.CreateReport | BACKEND/src/controllers/reportController.ts:65-168 | checks the caller, the ids, the priority, the job's existence, folder ownership and the (job, folder, user) duplicate in that order, changing nothing on a rejection; on success: a PENDING report whose results are the new applicants, its id pushed once onto the job, and one applicant per processed file |
| Reports.SubmitReport | BACKEND/src/controllers/reportController.ts:129-153 | the writes after the checks: the report, the job's list, the applicants and the results, nothing else |
| Reports.InsertApplicants | BACKEND/src/controllers/reportController.ts:141-152 | the insertion loop returns the new ids and leaves the applicants stated by `Fanout` |
| Reports.GetReportsByJob | BACKEND/src/controllers/reportController.ts:174-222 | only the job's creator gets an answer, and it is exactly the reports of that job |
| Reports.DeleteReport | BACKEND/src/controllers/reportController.ts:228-290 | proceeds iff the caller owns the job or the report; then removes the report and every occurrence of its id from the job's list; otherwise changes nothing |
| Reports.DeleteKeepsOtherReports | BACKEND/src/controllers/reportController.ts:277-281 | deleting a report removes its id and keeps every other id with its multiplicity and order |
| Folders.CreateFolder | BACKEND/src/controllers/folderController.ts:9-43 | an invalid caller gives 400; a missing title gives 500; a title that trims to nothing gives 400; otherwise a folder with the untrimmed title, owned by the caller, with no files |
| Folders.UpdateFolder | BACKEND/src/controllers/folderController.ts:45-85 | renames any existing folder, whoever asks; changes only the title; a missing folder gives 404 after the title check |
| Folders.RenameKeepsInvariants | BACKEND/src/controllers/folderController.ts:70-71 | renaming keeps the folder invariants |
| Folders.DeleteFolder | BACKEND/src/controllers/folderController.ts:88-150 | whoever asks: a cloud deletion is attempted once for each of the folder's resumes with a public id, in id order, and a failing one never stops the loop; afterwards no resume of the folder remains and the folder is gone; bad or unknown ids change nothing |
| Folders.GetFolder | BACKEND/src/controllers/folderController.ts:152-176 | exactly the folders whose owner is the caller; a missing caller gives 400 |
| Jobs.CreateJob | BACKEND/src/controllers/jobController.ts:9-59 | rejects a falsy title, location or vacancies (0 included) with no change; otherwise a job owned by the caller with no reports |
| Jobs.ApplyPatch | BACKEND/src/controllers/jobController.ts:92 | after `Object.assign` the job holds every key the body carries, and it is unchanged iff it already held all of them |
| Jobs.Merge | BACKEND/src/controllers/jobController.ts:92 | two bodies in a row, the later key winning; an empty body on either side leaves the other |
| Jobs.PatchComposition | BACKEND/src/controllers/jobController.ts:92 | assigning a body twice is assigning it once; two bodies in a row are their merge |
| Jobs.UpdateJob | BACKEND/src/controllers/jobController.ts:64-108 | proceeds iff the caller created the job; otherwise 401, 400 or 403 with no change |
| Jobs.DeleteJob | BACKEND/src/controllers/jobController.ts:113-162 | proceeds iff the caller created the job; removes the job, and every report of the job only when its report list is non-empty; applicants kept |
| Jobs.GetUserJobs | BACKEND/src/controllers/jobController.ts:167-193 | exactly the jobs the caller created |
| Resumes.NewResume | BACKEND/src/controllers/resumeController.ts:37-41 | a new resume carries the folder, path and original name, and starts PENDING with 0 retries out of 3 |
| Resumes.UploadResume | BACKEND/src/controllers/resumeController.ts:7-59 | an invalid folder id or a missing file is rejected first, and an unknown folder gives 404, all with no change; otherwise the resume is created under a fresh id and appended to the folder's `totalFiles` only, whoever asks |
| Resumes.IdText | BACKEND/src/controllers/resumeController.ts:33 | the id in the not-found message is a non-empty string of digits |
| Extract.TextLinkHasNoWhitespace | BACKEND/src/utils/extract.ts:10 | a match of the link pattern contains no whitespace |
| Extract.SchemeLength | BACKEND/src/utils/extract.ts:10 | the `https?://` part matches with 8 or 7 characters, or not at all |
| Extract.RunLength | BACKEND/src/utils/extract.ts:10 | the greedy `[^\s)>"']+` run takes every link character and stops at the first other one |
| Extract.MatchAtStart | BACKEND/src/utils/extract.ts:10 | a scheme followed by at least one link character is a match of the pattern |
| Extract.Matches | BACKEND/src/utils/extract.ts:10 | every match begins with "http://" or "https://", has at least one more character, and contains no whitespace, `)`, `>`, `"` or `'` |
| Extract.TextLinks | BACKEND/src/utils/extract.ts:10-17 | the text links are the deduplicated matches, first occurrence first; trimming changes none of them |
| Extract.TrimmedMatchesUnchanged | BACKEND/src/utils/extract.ts:15 | `link.trim()` is the identity on matches |
| Extract.ExtractTextAndMetadata | BACKEND/src/utils/extract.ts:5-24 | the text is "" when the parser supplies none, the metadata is the parser's, and the links are duplicate-free matches |
| Extract.ExtractHyperlinks | BACKEND/src/utils/extract.ts:27-46 | the page and annotation loops return the deduplicated urls of link annotations, in page order |
| Extract.PageLinksExact | BACKEND/src/utils/extract.ts:38-42 | a url is collected from a page iff some annotation there has subtype "Link" and that url |
| Extract.DocumentLinksExact | BACKEND/src/utils/extract.ts:34-43 | a url is collected iff some page has such an annotation |
| Extract.AnnotationLinksExact | BACKEND/src/utils/extract.ts:32-45 | the result is duplicate-free and holds exactly the urls of the link annotations of pages 1..numPages |
| Social.Split | BACKEND/src/utils/social.ts:22 | `split("/")` yields at least one piece, none containing the separator |
| Social.ExtractUsername | BACKEND/src/utils/social.ts:19-26 | no pathname gives null; a username is non-empty and contains no `/` |
| Social.NonEmpty | BACKEND/src/utils/social.ts:22 | `filter(Boolean)` keeps only non-empty pieces |
| Social.DropTrailingSlashes | BACKEND/src/utils/social.ts:19-26 | a prefix of the path that does not end in `/` and is followed only by slashes |
| Social.TailSegment | BACKEND/src/utils/social.ts:19-26 | the slash-free end of a path, preceded by a slash when shorter than the path |
| Social.LastSegment | BACKEND/src/utils/social.ts:19-26 | the independent description of a username: non-empty and slash-free |
| Social.LastSegmentNone | BACKEND/src/utils/social.ts:22 | there is no username exactly when the path is all slashes |
| Social.SplitLastIsTail | BACKEND/src/utils/social.ts:22 | the last piece of the split is the slash-free end of the path |
| Social.SplitSlash | BACKEND/src/utils/social.ts:22 | a trailing slash adds only an empty piece |
| Social.SplitOther | BACKEND/src/utils/social.ts:22 | a final non-slash character extends the last piece |
| Social.ExtractUsernameIsLastSegment | BACKEND/src/utils/social.ts:19-26 | `pathname.split("/").filter(Boolean).pop() \|\| null` is the last non-empty path segment, and null when there is none |
| Social.FetchLinkedIn | BACKEND/src/utils/social.ts:303-309 | the LinkedIn entry is never scraped: it has the url, an error and no stats |
| Social.ApplyConcat | BACKEND/src/utils/social.ts:43-45 | bumping in two batches is bumping in one |
| Social.WeightConcat | BACKEND/src/utils/social.ts:43-45 | the weight of two batches is the sum of their weights |
| Social.ApplyWeight | BACKEND/src/utils/social.ts:43-45 | each count is its start plus the positive amounts bumped into it, so counts never decrease, and a key is present iff it was or was bumped |
| Social.ExtensionBump | BACKEND/src/utils/social.ts:64-82 | a file adds at most two bumps, those of the first rule of the else-if chain that applies |
| Social.ExtensionBumps | BACKEND/src/utils/social.ts:64-82 | the extension loop adds at most two bumps per file, only to react, typescript, javascript, c++, python and java |
| Social.ExtensionExamples | BACKEND/src/utils/social.ts:65-70 | `.tsx` adds 2 to react and 2 to typescript (the `.ts` rule does not also fire); `.jsx` adds 2 to react and 1 to javascript |
| Social.FiredWeightAbsent | BACKEND/src/utils/social.ts:86-97 | a key no rule names gets nothing |
| Social.FiredWeightUnique | BACKEND/src/utils/social.ts:86-97 | in a block of distinct keys each rule adds its amount once if it fires and nothing otherwise |
| Social.ConfigRules | BACKEND/src/utils/social.ts:86-97 | the nine config and backend signals, with distinct keys |
| Social.LayoutRules | BACKEND/src/utils/social.ts:138-154 | the Python, C++ and folder signals, four of them, with distinct keys |
| Social.DepRules | BACKEND/src/utils/social.ts:115-130 | the twelve dependency signals of a `package.json`, with distinct keys |
| Social.DepSignalsFireOnce | BACKEND/src/utils/social.ts:119-130 | within one `package.json` each dependency signal adds its amount once if present and nothing otherwise |
| Social.SignalsFireOnce | BACKEND/src/utils/social.ts:86-154 | each config, backend, Python/C++ and folder signal fires at most once per repository, however many files match |
| Social.PackagePaths | BACKEND/src/utils/social.ts:101 | the package paths are files of the tree ending in "package.json" |
| Social.RepoBumps | BACKEND/src/utils/social.ts:47-60 | forks, repositories under size 100 and unreadable trees contribute nothing |
| Social.PackageBumpsConcat | BACKEND/src/utils/social.ts:103-134 | each package file adds its own dependency bumps, independently of the others |
| Social.AnalyzeGitHubRepos | BACKEND/src/utils/social.ts:35-158 | the repository loop builds the frequency map that every repository's bumps, applied in order, build |
| Social.AnalyzeRepo | BACKEND/src/utils/social.ts:47-155 | one repository: extension loop, config and backend signals, package files, then Python/C++ and folder signals |
| Social.BumpExtensions | BACKEND/src/utils/social.ts:64-82 | the file loop applies each file's extension rule in turn |
| Social.BumpPackages | BACKEND/src/utils/social.ts:103-134 | the package loop applies each readable package's bumps and skips the others |
| Social.AnalysisCounts | BACKEND/src/utils/social.ts:41-45 | every count in the result is positive and is the total weight of its bumps |
| Social.SettledEntry | BACKEND/src/utils/social.ts:336-344 | a fulfilled fetch is its profile; a rejected one is `{platform: "unknown", profileUrl: "", error}` with the message or "Failed to fetch" |
| Social.Tasks | BACKEND/src/utils/social.ts:324-328 | only supplied platforms get a task |
| Social.Entries | BACKEND/src/utils/social.ts:334-344 | one entry per task |
| Social.FetchAllSocialProfiles | BACKEND/src/utils/social.ts:313-347 | the results are the LinkedIn entry when supplied, then the settled fetches in task order |
| Social.SettleTasks | BACKEND/src/utils/social.ts:334-344 | the loop over the settled promises maps each to its entry, in order |
| Social.CollectTasks | BACKEND/src/utils/social.ts:324-328 | the `if (social.x)` pushes in the order github, leetcode, codeforces, codechef, gfg |
| Social.TasksExact | BACKEND/src/utils/social.ts:324-328 | a distinct platform gets a task iff it is supplied |
| Social.ProfilesLayout | BACKEND/src/utils/social.ts:321-332 | one result per fetched task, after the LinkedIn entry when LinkedIn is supplied; that entry comes first, with an error and no stats |
| Social.FetchedTasks | BACKEND/src/utils/social.ts:324-328 | a platform is fetched iff it is one of the five and supplied |
| Social.ProfilesOrder | BACKEND/src/utils/social.ts:334-344 | after the LinkedIn entry, result i is the settled outcome of task i |
| Seo.NormalizeUrl | BACKEND/src/utils/seo.ts:121-123 | the result has a scheme and ends with the input; it equals the input iff the input starts with "http://" or "https://" |
| Seo.NormalizeIdempotent | BACKEND/src/utils/seo.ts:121-123 | normalising twice is normalising once |
| Seo.OrElse | BACKEND/src/utils/seo.ts:140-148 | `value \|\| fallback` picks a non-empty value, otherwise the fallback, so it is never empty when the fallback is not |
| Seo.ExtractBasic | BACKEND/src/utils/seo.ts:138-149 | the title is the trimmed title text, or "Not found" when that is empty; the viewport is its value or "Not found"; the charset is the charset, else the content type, else "Not found"; so no field of the report's `basic` is ever empty |
| Seo.NonBlankTexts | BACKEND/src/utils/seo.ts:22-29 | every kept heading text is non-empty and trimmed at its start |
| Seo.ExtractTexts | BACKEND/src/utils/seo.ts:22-29 | the loop keeps exactly the trimmed non-empty texts, in order |
| Seo.CountWithAlt | BACKEND/src/utils/seo.ts:35-38 | the number of images with a truthy alt, never more than the number of images |
| Seo.AnalyzeImages | BACKEND/src/utils/seo.ts:31-45 | total = withAlt + withoutAlt = number of images, and withAlt counts the truthy alts |
| Seo.AllAltIff | BACKEND/src/utils/seo.ts:37 | all images count as having alt iff every alt is truthy |
| Seo.EmptyAltIsMissing | BACKEND/src/utils/seo.ts:37 | an empty or absent alt counts as missing |
| Seo.AnalyzeLinks | BACKEND/src/utils/seo.ts:47-71 | the loop counts the distinct internal and external URLs the classification defines |
| Seo.LinkClassification | BACKEND/src/utils/seo.ts:55-65 | empty and `#` hrefs are skipped; a resolved URL is internal iff it starts with the base URL and external otherwise; every URL is counted exactly once |
| Seo.Classified | BACKEND/src/utils/seo.ts:55-65 | every internal URL starts with the base URL and no external one does |
| Seo.CheckMobileFriendly | BACKEND/src/utils/seo.ts:88-91 | true iff the viewport content contains "width=" |
| Seo.Criteria | BACKEND/src/utils/seo.ts:103-112 | one flag for each of the ten criteria, in the order of the source |
| Seo.CalculateScore | BACKEND/src/utils/seo.ts:93-115 | the points of the criteria that hold, capped at 65, so always in 0..65 |
| Seo.Tally | BACKEND/src/utils/seo.ts:101-114 | the `score +=` steps and the cap compute the capped points |
| Seo.RawScoreBounds | BACKEND/src/utils/seo.ts:103-114 | the uncapped score is at most 90, reached when every criterion holds, and 0 when none does |
| Seo.EarnedMonotone | BACKEND/src/utils/seo.ts:103-112 | meeting more criteria never lowers the score |
| Seo.CriterionIndependent | BACKEND/src/utils/seo.ts:103-112 | each criterion adds its fixed points whatever the others do |
| Seo.TitlePoints | BACKEND/src/utils/seo.ts:103 | the title earns its points iff the trimmed title text has a length strictly between 10 and 60 |
| Seo.Percentage | BACKEND/src/utils/seo.ts:174 | the reported score lies in 0..100, is 100 iff the raw score is 65, and 0 iff it is 0 |
| Seo.CappedScoreStep | BACKEND/src/utils/seo.ts:103-114 | every weight is a multiple of 5, so every capped score is a multiple of 5 |
| Seo.PercentageMargin | BACKEND/src/utils/seo.ts:174 | on a multiple of 5 in 0..65, `raw * 100 / 65` is exact only at 0 and 65, and elsewhere its remainder lies in 5..60, so the exact quotient is at least 1/13 away from an integer |
| Seo.AnalyzeSEO | BACKEND/src/utils/seo.ts:119-181 | fails iff the normalised URL does not parse or cannot be fetched; otherwise reports the normalised URL, the basic tags and the percentage of the capped score of the page's analyses |
| Seo.AnalysePage | BACKEND/src/utils/seo.ts:151-160 | the heading, image and link loops agree with their specifications |
| Seo.ScorePage | BACKEND/src/utils/seo.ts:151-169 | the raw score of a fetched page is the capped score of its analyses |
| Applicants.HasValidProfile | BACKEND/src/controllers/applicantController.ts:39-41 | `results.some(...)` holds iff some result has no error and non-empty stats |
| Applicants.Decide | BACKEND/src/controllers/applicantController.ts:36-44 | `authentication` is the results as returned; VERIFIED iff some result is valid; otherwise FAILED with "Unable to authenticate social profiles"; a verified applicant keeps its failure reason; nothing else changes |
| Applicants.VerifyApplicant | BACKEND/src/controllers/applicantController.ts:7-53 | a missing id gives 400 and a missing caller 401; an applicant not created by the caller gives 404; missing or empty social links give FAILED with "No social links provided" and 400; otherwise the decision is stored and returned |
| Applicants.RejectedNeverValid | BACKEND/src/utils/social.ts:339-343 | a rejected fetch carries an error, so it never verifies anyone |
| Applicants.VerifiedNeedsFetchedProfile | BACKEND/src/controllers/applicantController.ts:39-44 | an applicant whose only link is LinkedIn, or whose fetches all fail, is never verified |
| Applicants.CheckUrlSafeBrowsing | BACKEND/src/utils/threat.ts:36-54 | true (safe) iff there is no threat match, or the lookup failed (fail-open) |
| Applicants.SafetyInverted | BACKEND/src/controllers/applicantController.ts:72 | as written, `isSafe` is the negation of `IsSafe`, the checker's documented meaning (no match, or a failed lookup): no match gives `isSafe == false`, one match gives `isSafe == true` |
| Applicants.SafetyIntended | BACKEND/src/utils/threat.ts:14-17 | the checker's result equals `IsSafe`, its documented meaning restated as a predicate (no match, or a failed lookup), so passing it through as `isSafe: threat` reports safety correctly |
| Applicants.ProjectAnalysis | BACKEND/src/controllers/applicantController.ts:56-84 | a missing or empty URL gives 400; an SEO failure gives 500; otherwise `threat` is the checker's result, `isSafe` is its negation and so the negation of `IsSafe(lookup)`, and the SEO report carries the normalised URL, the basic tags and the percentage score that `analyzeSEO` computes for the fetched page |
| Applicants.ProjectAnalysisIntended | BACKEND/src/controllers/applicantController.ts:56-84 | the corrected handler: the same 400 and 500 cases, `isSafe == IsSafe(lookup)` (no match, or a failed lookup), and the same full SEO report (normalised URL, basic tags, percentage score) |

## Left out

- Process-level concurrency: several workers racing and the 2000/3000/300 ms sleeps. The claim is one atomic step, and the loop is a sequence of iterations whose count the caller supplies.
- Automation.Claim: which PENDING resume the database picks is not modelled; any one may be chosen.
- Automation.ProcessPendingResumes: the loop of the source runs until there is no work; the model runs at most as many iterations as it is given.
- Express routing, status-code objects and JSON bodies: responses are a tagged datatype by status family.
- Authentication (JWT, bcrypt, the middleware), the database connection and configuration. The caller's id is a parameter.
- The PDF libraries, Cloudinary, axios, cheerio, puppeteer and Safe Browsing: they are foreign, and their outcomes are inputs.
- The GitHub, LeetCode, Codeforces, CodeChef and GFG fetchers other than their settled outcome; the GitHub tree paths are taken already lower-cased.
- Local file deletion (`fs.unlink`) and the logging: they have no effect on the store.
- Database write failures in the handlers (their catch blocks answering 500); only the worker models failing writes.
- `populate`, and the newest-first sort by `createdAt`: answers are sets of ids.
- Timestamps (`createdAt`, the SEO report's `timestamp`).
- Schema enforcement by mongoose (required fields, strict mode): the model follows the handlers.
- Seo.Percentage: `Math.floor((raw / 65) * 100)` is floating point, and the model uses integer division `raw * 100 / 65`. Seo.CappedScoreStep and Seo.PercentageMargin prove that every reachable raw score is a multiple of 5 in 0..65. For such a score the exact quotient is either a whole number (at 0 and 65) or at least 1/13 from one. One double division and one product are accurate to well under that, so the two agree on every reachable score. The step from that margin to IEEE double arithmetic is argued here but not mechanised.
- Jobs.CreateJob: body fields are typed, strings for `title` and `location` and integers for `vacancies` and `experienceRequired`. JSON values of other types, such as the string "0" for `vacancies`, which JavaScript truthiness accepts, and mongoose's casting of them are not modelled.
- Reports.ValidatePriority: priority values are modelled as integers. Fractional JSON numbers such as 50.5 and 49.5, which the source accepts, are not modelled. Neither is their IEEE double total, under which 0.1 + 64.1 + 35.8 is 99.99999999999999 and is rejected.
- Reports.BadTotalMessage: the total in the message is a decimal integer; how JavaScript prints a fractional double total (`99.99999999999999`) is not modelled.
- Seo.AnalyzeSEO: the message "SEO analysis failed: ..." of the rethrown error is not modelled; a failure is `AnalysisFailed`.
- JavaScript string lengths count UTF-16 code units; the model counts characters. `toLowerCase` is not modelled.
- Structured data is counted from the page's selector matches (`jsonLdScripts`, `itemscopes`), not parsed.
- The h2 and h3 heading lists are extracted but neither scored nor reported, so the model leaves them out.
- Applicants.VerifyApplicant: the message of the CastError that a malformed id raises is a stand-in constant; a failing save and the handler's catch path are not modelled.
- Applicants.ProjectAnalysis: a `url` of another type than string is not modelled; a failing lookup request is the `LookupFailed` case.
- Resumes.IdText: an ObjectId prints as 24 hexadecimal digits; model ids are numbers printed in decimal.
- Store ids are natural numbers handed out in increasing order, not ObjectIds.

## Findings

| source | as written | input that shows it | evidently intended | confidence | as-written member | corrected member |
|---|---|---|---|---|---|---|
| BACKEND/src/controllers/applicantController.ts:72 | `isSafe: !threat`, where `threat = checkUrlSafeBrowsing(url)` is true when the URL is safe (BACKEND/src/utils/threat.ts:14-17, 45) | a lookup with no match (`Matches(0)`) gives `isSafe == false`; one with a match (`Matches(1)`) gives `isSafe == true` | `isSafe` is the checker's result: true iff there is no match or the lookup failed | high; not executed | Applicants.ProjectAnalysis, Applicants.SafetyInverted | Applicants.ProjectAnalysisIntended (its ensures `isSafe == IsSafe(lookup)`), Applicants.SafetyIntended |
