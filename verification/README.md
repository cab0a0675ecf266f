# Job finder backend: a verified model

A Dafny 4.11 model of the Go backend's services, its task queue and its PostgreSQL schema, with proofs about every
interleaving of its clients. `dafny verify dfyconfig.toml` checks the whole project.

## What is modelled

The services are a concurrent protocol over a relational store: HTTP requests and worker slots interleave "check, then
write" statements, some of which the schema's constraints rescue and some of which they do not.

* **Tables and statements.** `Schema` gives the six tables of the migration and each SQL statement as a function from the
  tables to the new tables and a result, with the UNIQUE, foreign-key and cascade rules. `Integrity` states what the
  constraints and the services keep true, and how the tables may change under a request that is between two statements.
* **Programs.** `Programs.Advance` runs one statement (or one transaction) of one of twelve requests.
* **Protocol.** `Protocol` is a state machine over any number of requests in flight, worker slots, queued tasks and issued
  tokens. One action is one step of one of them: a request begins, runs a statement, issues its tokens or is abandoned; a
  task is enqueued, delivered, runs a statement, returns, is recovered after a lost reply, or expires; the process
  crashes. `Run(c, actions)` is the state an interleaving reaches. History variables record which delivery inserted which
  row and how many signups and upgrades committed.
* **Services.** `Services`, `Worker` and `Middleware` hold the same methods in the source's own imperative form over a
  shared `Database.Pool`. Between two statements `Yield` hands the pool to the other clients, who may leave any tables
  that respect the UNIQUE constraints. Each method is proved to serve its request: its answer and the tables it leaves
  are those of its program under that interference. `Refinement` proves that every interleaving of the Protocol is such
  a schedule, so what is proved of programs is proved of methods.
* **Answers.** `Answers` states, request by request and column by column, what is answered and written when no other
  client runs in between, without the programs' own functions; `Sessions`, `Statuses`, `SavedJobs` and `Guarantees` state
  the same of every run where it survives interference.
* **UpdateJob's query compiler.** `SetClause` emits the SET text character by character, reads it back with a parser and
  runs it.
* **Listing.** `Listing`, `Filters`, `Pagination` and `Views` cover filter, join, order, pages, the int64 offset, the float64 page
  count and the lists users see.

## What the proofs found

* Applications are unique per (job, seeker) in every run if and only if the worker has one slot. The default
  concurrency is five. Live rows plus slots past the duplicate check never exceed the concurrency, and for each
  concurrency some interleaving attains it.
* A task reported "completed" has committed its row, but a task reported "failed" may have committed one too: when its
  reply is lost in a crash it is recovered, refused as a duplicate and archived. A task that is never recovered commits
  at most one row, and none if it is reported failed; so "failed" can be trusted in every run if and only if no task is
  ever recovered.
* `(page-1)*pageSize` wraps around. A page request gets its own page if and only if the offset is exact or wraps clear of
  the list; page 2^58+1 of size 64 answers with page 1.
* The float64 page count is right for every page size and every total up to a bound if and only if the bound is at most
  2^53.
* "Only Job Seekers can upgrade", the two "profile not found" answers behind a role gate, "Account is deactivated",
  "User not found" and "no longer active" are branches no run takes.

## Assumptions

* Ids are fresh and never reused; one counter stands for `gen_random_uuid()`.
* Each statement is atomic and does not fail for reasons outside the schema, so the two EXISTS queries whose errors the
  code drops do not fail. A transaction is atomic, and a rolled-back one leaves nothing behind. A request can still be
  abandoned and the process can crash between any two statements.
* There is one worker process, and a slot is not given away while its handler runs.
* The store starts empty; the seeder is not run.
* Rows with the same `created_at` are listed by id.
* Only `generateTokens` makes tokens and `VerifyToken` accepts no other. Expiry is not modelled; it only removes behaviour.
* `HashPassword` and `ComparePasswords` are parameters, as are ILIKE and the moment at which pgx reports a refused OFFSET.
* pgx reads and writes `role[]` as a list of role names, as the code intends.
* A status in a review is one of the four enum values, which request validation checks before the service runs.

## Model

| member | source | states |
|---|---|---|
| `Safety.EveryRunConsistent` | internal/db/migrations/001_initial.sql:37-109 | in every interleaving: all foreign and unique keys, role lists that match the profiles, active users and jobs, no NULL in a job, and each request's, slot's, token's and task's local assertion |
| `Safety.StepKeeps` | internal/services/jobseeker.go:112-145 | one action of any kind keeps all of that and lets the tables only evolve (owner columns fixed, accounts permanent, new ids only) |
| `Stability.HoldsStable` | internal/services/job.go:207-215 | check-then-act is stable: what a program established before a statement survives anything other requests do to the tables |
| `Stability.AdvanceKeeps` | internal/services/auth.go:244-296 | one statement of any admitted request keeps the tables sound, lets them only evolve and establishes its next local assertion |
| `Stability.SignupEffect` | internal/services/auth.go:112-139 | a signup transaction commits exactly when the email is free at that moment, and then adds one user and one profile; otherwise it changes nothing |
| `Integrity.SignupSound` | internal/services/auth.go:120-137 | the two inserts of a signup keep every constraint; a taken email is a unique violation and no write |
| `Integrity.UpgradeSound` | internal/services/auth.go:273-296 | of two upgrades that read the same role list the second violates UNIQUE(user_id) and writes nothing; the first leaves exactly [JOB_SEEKER, RECRUITER] |
| `Integrity.PatchJobSound` | internal/services/job.go:258-264 | a partial update keeps every constraint and the job's owner, activity and creation time |
| `Integrity.DeleteJobSound` | internal/db/migrations/001_initial.sql:92-109 | a cascading delete leaves no dangling reference |
| `Integrity.InsertApplicationSound` | internal/services/jobseeker.go:138-144 | a new submitted application with the given letter that keeps every foreign key, or, exactly when its job or profile is missing, a foreign-key error and no write |
| `Integrity.UpsertSavedSound` | internal/services/jobseeker.go:226-233 | the upsert keeps UNIQUE(job_id, job_seeker_id) and every foreign key, writes nothing when the pair is held, else inserts its row saved now, and fails exactly when the pair is not held and its job or profile is missing |
| `Integrity.InsertJobSound` | internal/services/job.go:184-194 | a new active job with the form's columns in their places that keeps every constraint, or, exactly when the profile is missing, a foreign-key error and no write |
| `Integrity.SetStatusSound` | internal/services/recruiter.go:177-183 | a review writes the status and time of that row and no other, and keeps every constraint |
| `Integrity.DeleteApplicationSound` | internal/services/jobseeker.go:206 | after a withdrawal that row is gone, every other is as it was, and every constraint holds |
| `Integrity.DeleteSavedSound` | internal/services/jobseeker.go:282-284 | after an unsave the pair has no row, every other row is as it was, and every constraint holds |
| `Errors.ConflictIff` | internal/middleware/error_handler.go:36-69 | exactly three application errors and a unique violation become status 409 |
| `Errors.StatusIff` | internal/middleware/error_handler.go:36-69 | exactly which errors become 400, 401, 403, 404 and 410; every other one is 409 or 500 |
| `Errors.ContainsIff` | internal/middleware/error_handler.go:62 | the test for a validation message is the substring relation |
| `Answers.SignupAlone` | internal/services/auth.go:99-188 | served alone: which input is refused and how; otherwise one user with the given columns and the kind's role, one profile, and tokens for them |
| `Answers.LoginAlone` | internal/services/auth.go:192-210 | tokens with the whole role list for the active user with that email whose stored hash the password opens, and the right refusal in every other case |
| `Answers.RefreshAlone` | internal/services/auth.go:214-229 | tokens for the user named, with the whole role list of now, or the right refusal |
| `Answers.UpgradeAlone` | internal/services/auth.go:244-304 | the role appended and the profile added for that user, tokens with both roles, or the right refusal and no write |
| `Answers.NoProfileAlone` | internal/services/job.go:49-58 | a caller without the profile gets its 404 and nothing is written |
| `Answers.CreateJobAlone` | internal/services/job.go:178-197 | the row holds the form's six columns in their places, is active and the caller's; the answer is that row under the caller's company name |
| `Answers.UpdateJobAlone` | internal/services/job.go:201-267 | each present field as requested and each absent one as it was, in the table and in the answer, which names the owner's company; 404 and 403 otherwise |
| `Answers.RemoveJobAlone` | internal/services/job.go:271-288 | that job, its applications and its saved rows are gone and nothing else; 404 and 403 otherwise |
| `Answers.ReviewAlone` | internal/services/recruiter.go:157-207 | the row has the requested status and a new updated_at and nothing else changes; the answer is that row with its applicant; 404 and 403 otherwise |
| `Answers.WithdrawAlone` | internal/services/jobseeker.go:189-208 | that application is gone and every other row stays; 404 and 403 otherwise |
| `Answers.UnsaveAlone` | internal/services/jobseeker.go:276-292 | the pair's rows are gone and every other row stays; 404 exactly when there was none |
| `Answers.ApplyAlone` | internal/services/jobseeker.go:112-145 | a submitted application with the letter and one time in both time columns; 404, 410 and 409 otherwise |
| `Answers.UpsertIs` | internal/services/jobseeker.go:226-233 | the held row, or a new row of the pair saved now; it fails exactly when the pair is not held and its job or profile is missing |
| `Answers.SaveAlone` | internal/services/jobseeker.go:212-234 | saving an existing job answers with the pair's row and writes at most that row; 404 otherwise |
| `Sessions.TokensNameTheirUser` | internal/services/auth.go:205-209 | in every run a login holds tokens only for the user with its email whose hash its password opens; a refresh, signup or upgrade only for its own user |
| `Sessions.AnswersAreIssued` | internal/services/auth.go:83-93 | in every run a request that answered with tokens had both issued, with those very roles and the two secrets |
| `Sessions.IssueIsExact` | internal/services/auth.go:83-93 | no other step makes a token |
| `Sessions.EveryCallWasLetIn` | internal/middleware/auth.go:26-74 | in every run each request behind a role gate acts for the user of an issued access token with that role, and each refresh for the user of an issued refresh token |
| `Statuses.ApplySucceeds` | internal/services/jobseeker.go:138-144 | in every run a delivery past its checks whose job is still there inserts exactly its submitted application and returns its id |
| `Statuses.ApplicationsStartSubmitted` | internal/db/migrations/001_initial.sql:92-100 | in every run each application ever inserted had its payload's job and letter, status submitted and the time of its insert in both time columns |
| `Statuses.StatusIsLastReview` | internal/services/recruiter.go:177-183 | in every run a live application has the status and time of the last review that wrote it, and is as submitted if there was none |
| `Guarantees.JobAnswersShowTheRow` | internal/services/job.go:128-142 | in every run a job in an answer is, column by column, the caller's row of that moment under its company's name |
| `Guarantees.ReviewAnswersShowTheRow` | internal/services/recruiter.go:185-206 | in every run a review answers with the reviewed row of that moment and its applicant's name and email |
| `Guarantees.TokensNeverOverstate` | internal/services/auth.go:83-93 | in every run each issued token carries a subset of its user's current roles, and each role it names has its profile row |
| `Guarantees.GatedRequestFindsProfile` | internal/middleware/auth.go:26-74 | a request that passed the role gate finds its caller's own profile, however late its first statement runs |
| `Guarantees.DeliveryFindsProfile` | internal/services/jobseeker.go:27-35 | a delivery finds the profile of the user its task was enqueued for |
| `Guarantees.DeadBranchesNeverTaken` | internal/services/auth.go:260-262 | no request or delivery of any run ends in one of six error branches |
| `Guarantees.OnlyOwnersChangeRows` | internal/services/job.go:207-261 | whatever ran between the check and the write, a request changes or removes only its caller's rows |
| `Guarantees.CallersAbsentInsertOnly` | internal/services/auth.go:99-210 | signup and login change no existing row |
| `Guarantees.WorkersInsertOnly` | internal/queue/worker.go:60-106 | no delivery changes an existing row |
| `Guarantees.EveryStepSparesOthers` | internal/services/recruiter.go:163-183 | every step of any kind in every run changes or removes only rows of the user it acts for, and none if it acts for none |
| `Guarantees.OwnerColumnsNeverChange` | internal/services/recruiter.go:163-183 | between any two states of a run a surviving job, application or saved row keeps its owner columns |
| `Guarantees.DeletedStaysDeleted` | internal/services/jobseeker.go:206-207 | an id deleted in a run never names a row again |
| `Guarantees.AccountsPermanent` | internal/services/auth.go:120-137 | users and profiles, once committed, stay with the same owner; role lists only grow |
| `Guarantees.RolesMatchProfiles` | internal/services/auth.go:244-296 | in every run a user holds RECRUITER exactly when a recruiter profile exists, JOB_SEEKER exactly when a seeker profile exists, and no role twice |
| `Guarantees.RemovalIsExact` | internal/services/job.go:271-288 | in every run the write of a job deletion removes exactly the checked job, which is the caller's, with its applications and saved rows; every other row of all six tables stays and nothing dangles |
| `Guarantees.InsertAfterRemoval` | internal/services/jobseeker.go:138-144 | a delivery whose job is deleted after its existence check fails with a foreign-key error and writes nothing |
| `Signups.SignupsConserveRows` | internal/services/auth.go:120-137 | in every run users equal committed signups, profiles equal committed signups and upgrades of their kind, and no email commits twice |
| `Signups.LosersGetConflict` | internal/services/auth.go:73-81 | a signup with usable input that does not commit ends in 409 by either path, and the email is taken |
| `Signups.FailedUpgradeMeansRecruiter` | internal/services/auth.go:263-292 | an upgrade that does not commit ends in 409 and the user has a recruiter profile |
| `Duplicates.DuplicatesBounded` | internal/services/jobseeker.go:129-144 | for every interleaving and pair, live applications plus slots past the duplicate check never exceed the concurrency |
| `Attained.RaceFrom` | internal/queue/worker.go:28-32 | from any ready state, n slots can put n applications of one pair into the table |
| `Attained.BoundIsReached` | internal/queue/worker.go:28-32 | some interleaving reaches the concurrency exactly |
| `Attained.UniqueIffOneSlot` | internal/db/migrations/001_initial.sql:92-100 | applications are unique per pair in all runs if and only if the concurrency is at most one |
| `Recovery.FailedMeansNotApplied` | internal/handlers/queue.go:87-104 | in every run a task that is never recovered commits at most one row, and none if it is reported failed |
| `Recovery.FailedThoughApplied` | internal/queue/worker.go:69-77 | any task can be reported failed with its own delivery's row in the table, in a run that recovers only that task |
| `Recovery.FailedIsReliableIff` | internal/handlers/queue.go:61-65 | in every run that recovers only tasks of a set, failed means that nothing was committed, if and only if the set is empty or the worker has no slot |
| `Provenance.RowsComeFromPayloads` | internal/queue/client.go:39-50 | every application row was inserted for an enqueued payload with the same job, letter and user |
| `Provenance.CompletedMeansCommitted` | internal/handlers/queue.go:87-104 | a task reported completed carries the id of the row that a delivery of this very task inserted, or that its own upsert returned |
| `Provenance.ReportedStates` | internal/handlers/queue.go:87-104 | exactly which state each reported status stands for |
| `SavedJobs.PairSavedOnce` | internal/db/migrations/001_initial.sql:103-109 | at most one saved row per pair in every run |
| `SavedJobs.SavedRowSurvives` | internal/services/jobseeker.go:212-234 | any number of deliveries, with no unsave of the pair and no deletion of the job, leaves the one row with its id and saved_at |
| `SavedJobs.RepeatedSaveReturnsRow` | internal/services/jobseeker.go:226-233 | a repeated delivery returns the existing row and writes nothing |
| `SavedJobs.SaveSucceeds` | internal/services/jobseeker.go:226-233 | in every run a delivery that reaches its upsert while its job is there returns the pair's only row; a row it inserts is saved now and nothing else is written |
| `SavedJobs.SomeRunSaves` | internal/queue/worker.go:85-106 | a worker with a slot has a run that saves a job |
| `SetClause.StatementReads` | internal/services/job.go:258-259 | every emitted statement text parses back to its assignments and its key parameter |
| `SetClause.PlaceholdersNameValues` | internal/services/job.go:218-251 | placeholders are $2 to $(k+1) in order, each naming its own column's value |
| `SetClause.AssignedIffPresent` | internal/services/job.go:222-251 | a column is assigned if and only if its field is present |
| `SetClause.CompiledUpdateMeansPatch` | internal/services/job.go:217-264 | parsed and run on any tables, the emitted text with its arguments is the direct partial update of that one job |
| `SetClause.PatchIsExact` | internal/services/job.go:222-258 | that update sets exactly the present columns and updated_at, and touches no other column and no other row |
| `SetClause.UpdatesCompose` | internal/services/job.go:201-267 | two updates in sequence, empty ones included, run to the tables of one update with the second overriding the first, at the time of the last that ran a statement |
| `SetClause.BuildUpdate` | internal/services/job.go:217-259 | the clause-by-clause construction yields that statement and argument list, or nothing when no field is present |
| `SetClause.AppendField` | internal/services/job.go:222-226 | one field's block extends the clauses, the arguments and the index together, or leaves them alone |
| `SetClause.EmptyIffNoChange` | internal/services/job.go:253-256 | there is no clause if and only if no field is present |
| `Decimal.AtoiReads` | internal/handlers/job.go:197 | a printed number that fits an int64 is read back as itself |
| `Decimal.ItoaParses` | internal/services/job.go:291 | printed placeholders are digits and read back as their number |
| `Listing.OrderedUnique` | internal/services/job.go:97 | the listing order leaves one possible list |
| `Listing.CountIsListLength` | internal/services/job.go:74-99 | the COUNT without the join equals the length of the joined list, which holds exactly the matching jobs |
| `Filters.Unfiltered` | internal/services/job.go:94-96 | without a filter the list is every active job |
| `Filters.Searched` | internal/services/job.go:94 | with a search text it is the active jobs with the text in title, description or requirements |
| `Filters.Categorised` | internal/services/job.go:95 | with a category it is the active jobs of exactly that category |
| `Filters.Located` | internal/services/job.go:96 | with a location it is the active jobs whose location holds it |
| `Filters.FiltersIntersect` | internal/services/job.go:74-96 | with all three it is the jobs common to the three lists, and COUNT counts the same jobs |
| `Filters.RecruiterListed` | internal/services/job.go:152-159 | a recruiter's list is the recruiter's jobs |
| `Filters.JobsNewestFirst` | internal/services/job.go:97 | an earlier job in the public list is at least as new |
| `Filters.PostedNewestFirst` | internal/services/job.go:159 | the same in a recruiter's list |
| `Filters.ApplicationsNewestFirst` | internal/services/jobseeker.go:164 | the same in a seeker's list of applications |
| `Filters.ApplicantsNewestFirst` | internal/services/recruiter.go:132 | the same in a job's list of applicants |
| `Filters.SummaryColumns` | internal/services/jobseeker.go:155-182 | each column shown of an application and its job is the column of the table |
| `Filters.ApplicantColumns` | internal/services/recruiter.go:123-150 | each column shown of an applicant is the column of the table |
| `Filters.JobColumns` | internal/services/job.go:32-44 | each column shown of a job is the column of the table, with its company's name |
| `Listing.PagesTile` | internal/services/job.go:86-122 | pages 1 to TotalPages, joined, are the list |
| `Listing.LaterPagesEmpty` | internal/services/job.go:98 | a page is empty exactly when it is past TotalPages |
| `Listing.OnOnePage` | internal/services/job.go:98 | each row is on exactly one page |
| `Listing.ScanJobs` | internal/services/job.go:105-112 | the row loop returns every row in order, or the NULL scan error if and only if a row holds a NULL |
| `Pagination.RequestsAreUsable` | internal/handlers/job.go:193-202 | every query string gives a page of at least 1 and a size of 1 to 100, and a printed number in range is taken as it is |
| `Pagination.ClampsAre` | internal/services/job.go:66-71 | the service keeps a usable page and size and turns any other into 1 and 10 |
| `Pagination.DefaultsApply` | internal/handlers/job.go:193-202 | a missing, malformed, zero, negative or too large page gives 1 and size gives 10 |
| `Pagination.OffsetExactIff` | internal/services/job.go:72 | the int64 offset is exact if and only if page-1 is at most (2^63-1)/pageSize |
| `Pagination.ResponseRightIff` | internal/services/job.go:66-103 | a request gets the page it asked for if and only if the offset is exact or wraps clear of the list |
| `Pagination.FarPageRepeatsFirst` | internal/services/job.go:72 | a page far past any list that answers with the first page |
| `Pagination.NearestIsClosest` | internal/services/job.go:120 | rounding to an integer picks the closest, and the even one of two |
| `Pagination.FloatScales` | internal/services/job.go:120 | binary64 rounding commutes with doubling, and is that rounding between 2^52 and 2^53 |
| `Pagination.FloatClose` | internal/services/job.go:120 | rounding to binary64 loses less than one part in 2^53 |
| `Pagination.FloatMonotone` | internal/services/job.go:120 | rounding to binary64 is monotone |
| `Pagination.TotalPagesExact` | internal/services/job.go:120 | the float64 page count is the integer ceiling for every size 1 to 100 and every total up to 2^53 |
| `Pagination.TotalPagesInexact` | internal/services/job.go:120 | at 2^53+1 rows of page size 1 it is one too small |
| `Pagination.PageCountsRightIff` | internal/services/job.go:120 | page counts up to a bound are all right if and only if the bound is at most 2^53 |
| `Pagination.BrowsingSeesEveryJob` | internal/services/job.go:64-122 | asking for pages 1 to TotalPages returns every matching job once and in order |
| `Views.ViewsAgree` | internal/services/jobseeker.go:155-185 | in every run a seeker sees an application with a status exactly when the job's recruiter sees it with that status |
| `Views.ViewsAddUp` | internal/services/recruiter.go:123-152 | the lists of all seekers, and those of all jobs, together hold each application once |
| `Views.ListingsAgree` | internal/services/job.go:146-174 | in every run COUNT equals the joined list, the unfiltered count equals all recruiters' lists together, and every row scans |
| `Services.AuthService.SignupJobSeeker` | internal/services/auth.go:99-140 | under any interference it answers and writes as its program does; a failed transaction is rolled back |
| `Services.AuthService.SignupRecruiter` | internal/services/auth.go:144-188 | the same, with the company row |
| `Services.AuthService.Login` | internal/services/auth.go:192-210 | answers as its program does; the tokens carry the roles read |
| `Services.AuthService.RefreshTokens` | internal/services/auth.go:214-229 | answers as its program does, with the roles read now |
| `Services.AuthService.UpgradeToRecruiter` | internal/services/auth.go:244-304 | answers and writes as its program does; both rows or neither |
| `Services.AuthService.RoleFlags` | internal/services/auth.go:250-259 | the loop finds exactly whether each role is in the list |
| `Services.JobSeekerService.GetJobSeekerId` | internal/services/jobseeker.go:27-35 | the first statement of a seeker's request: the user's profile, or the request's 404 |
| `Services.JobSeekerService.ApplyToJob` | internal/services/jobseeker.go:112-145 | under any interference it answers and writes as its program does |
| `Services.JobSeekerService.SaveJob` | internal/services/jobseeker.go:212-234 | the same for the upsert |
| `Services.JobSeekerService.WithdrawApplication` | internal/services/jobseeker.go:189-208 | the same for the withdrawal |
| `Services.JobSeekerService.UnsaveJob` | internal/services/jobseeker.go:276-292 | the same for the unsave, 404 exactly when no row was deleted |
| `Services.JobSeekerService.GetApplications` | internal/services/jobseeker.go:149-185 | the seeker's whole list, in order, of the tables its query sees |
| `Services.RecruiterService.GetRecruiterId` | internal/services/recruiter.go:27-35 | the same for a recruiter's request |
| `Services.RecruiterService.UpdateApplicationStatus` | internal/services/recruiter.go:157-207 | under any interference it answers and writes as its program does |
| `Services.RecruiterService.GetApplicationsForJob` | internal/services/recruiter.go:107-153 | the job's whole list for its owner, the right refusal for anyone else |
| `Services.JobService.GetRecruiterId` | internal/services/job.go:49-58 | the same for a job request |
| `Services.JobService.CreateJob` | internal/services/job.go:178-197 | under any interference it answers and writes as its program does |
| `Services.JobService.ExecPatch` | internal/services/job.go:217-264 | building and running the statement is the partial update, and runs nothing when no field is present |
| `Services.JobService.UpdateJob` | internal/services/job.go:201-267 | the same, through the compiled statement text |
| `Services.JobService.DeleteJob` | internal/services/job.go:271-288 | the same for the deletion |
| `Services.JobService.GetJobsByRecruiter` | internal/services/job.go:146-174 | the recruiter's whole list, scanned row by row, or the scan error exactly when a row holds a NULL; it writes nothing |
| `Services.JobService.GetAllJobs` | internal/services/job.go:64-123 | the count of the first statement's tables and the page of the second's, for the clamped page and size, or the scan error exactly when a row holds a NULL; it writes nothing |
| `Refinement.ThreadsFollowSchedules` | internal/queue/worker.go:60-106 | in any interleaving a request or a delivery stands, after each of its statements, where its method stands on the schedule of the others' steps |
| `Refinement.LastStatementLeaves` | internal/services/job.go:258-266 | and its last statement leaves the tables its method leaves |
| `Refinement.MethodAnswersAsThread` | internal/handlers/job.go:144-169 | what a method answers on that schedule is what the request answers in the interleaving |
| `Refinement.SchedulesAreLawful` | internal/db/migrations/001_initial.sql:37-109 | schedules of reachable interleavings meet what the pool asks of them |
| `Worker.Client.EnqueueApplyToJob` | internal/queue/client.go:39-50 | adds one pending task with this payload and a new id, the Protocol's enqueue step |
| `Worker.Client.EnqueueSaveJob` | internal/queue/client.go:54-65 | the same for a save |
| `Worker.WorkerServer.ApplyHandler` | internal/queue/worker.go:60-81 | reports the service's error and no result, or no error and the id of the row it committed |
| `Worker.WorkerServer.SaveHandler` | internal/queue/worker.go:85-106 | the same for a save |
| `Worker.WorkerServer.Process` | internal/queue/worker.go:44-49 | each task goes to its handler, and its new state is the Protocol's |
| `Middleware.AuthorizeRoles` | internal/middleware/auth.go:52-74 | lets a user through if and only if one of the user's roles is allowed |
| `Middleware.Admit` | internal/middleware/auth.go:26-74 | both gates together are the Protocol's gate; 403 exactly for a valid token without the role, 401 otherwise |

## Left out

- HTTP routing, cookies, headers, CORS, compression, logging and shutdown: plumbing.
- JWT cryptography, bcrypt, Redis and asynq internals, and JSON encoding of payloads and results.
- Request validation tags and the response structs' field names.
- Error messages: only the status code a message comes with is kept.
- GetProfile, UpdateJobSeekerProfile and UpdateRecruiterProfile: their statements use columns the profile tables do not have.
- The location, education and experience columns of seeker profiles: no modelled query reads them. The other profile columns keep the values signup and upgrade give them.
- GetSavedJobs and GetCurrentUser: the same shape as the lists and lookups that are modelled.
- The notifications and reports tables and the seeder: no service uses those tables.
- ILIKE matching and PostgreSQL's planner: ILIKE is any predicate on two strings.
- rows.Err(): the list methods never read it, so an error in the middle of a result set would shorten a list; statements do not fail here.
- Fairness and progress: nothing is proved about when a queued task is delivered.
