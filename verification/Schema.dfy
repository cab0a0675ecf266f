/**
 The tables of internal/db/migrations/001_initial.sql and the SQL statements the
 services run on them. A table maps each primary key to its row; ids come from one
 counter, so none is ever reused. Each statement is a function from the tables to the
 new tables and its result; one that breaks a constraint leaves the tables as they were.
 */
module Schema {
  import opened Wrappers
  import opened Errors

  type Id = nat
  type Time = nat

  datatype Role = JobSeeker | Recruiter | Admin

  datatype Status = Submitted | Shortlisted | Rejected | UnderReview

  datatype User = User(name: string, email: string, password: string, roles: seq<Role>,
                       isActive: bool, createdAt: Time, updatedAt: Time)

  /** The columns of job_seeker_profiles that some query reads; bio and resume_url may be NULL. */
  datatype SeekerProfile = SeekerProfile(userId: Id, bio: Option<string>, skills: seq<string>, resumeUrl: Option<string>)

  datatype Company = Company(name: string, website: string, industry: string, description: string)

  datatype RecruiterProfile = RecruiterProfile(userId: Id, company: Company)

  /** salary_range and category are the only columns of jobs that may be NULL. */
  datatype Job = Job(recruiterId: Id, title: string, description: string, requirements: string, location: string,
                     salaryRange: Option<string>, category: Option<string>,
                     isActive: bool, createdAt: Time, updatedAt: Time)

  datatype Application = Application(jobId: Id, seekerId: Id, coverLetter: string, status: Status,
                                     createdAt: Time, updatedAt: Time)

  datatype SavedJob = SavedJob(jobId: Id, seekerId: Id, savedAt: Time)

  datatype Db = Db(users: map<Id, User>, seekers: map<Id, SeekerProfile>, recruiters: map<Id, RecruiterProfile>,
                   jobs: map<Id, Job>, applications: map<Id, Application>, saved: map<Id, SavedJob>, nextId: Id)

  const EMPTY := Db(map[], map[], map[], map[], map[], map[], 0)

  // ---- Requests for a new job and for a partial update ----

  datatype JobForm = JobForm(title: string, description: string, requirements: string, location: string,
                             salaryRange: string, category: string)

  /** UpdateJobRequest: a nil pointer is None. */
  datatype JobPatch = JobPatch(title: Option<string>, description: Option<string>, requirements: Option<string>,
                               location: Option<string>, salaryRange: Option<string>, category: Option<string>)

  const NO_CHANGE := JobPatch(None, None, None, None, None, None)

  function Kept(change: Option<string>, column: Option<string>): Option<string> {
    if change.Some? then change else column
  }

  /** The row a partial update asks for: present fields replaced, the trigger's updated_at, all else kept. */
  function PatchedJob(job: Job, p: JobPatch, now: Time): Job {
    job.(title := p.title.GetOr(job.title),
         description := p.description.GetOr(job.description),
         requirements := p.requirements.GetOr(job.requirements),
         location := p.location.GetOr(job.location),
         salaryRange := Kept(p.salaryRange, job.salaryRange),
         category := Kept(p.category, job.category),
         updatedAt := now)
  }

  /** The row INSERT INTO job_seeker_profiles (user_id) makes: every other column has its default. */
  function BlankProfile(userId: Id): SeekerProfile {
    SeekerProfile(userId, None, [], None)
  }

  // ---- Queries ----

  ghost predicate EmailTaken(db: Db, email: string) {
    exists u :: u in db.users && db.users[u].email == email
  }

  predicate IsSeeker(db: Db, userId: Id, p: Id) {
    p in db.seekers && db.seekers[p].userId == userId
  }

  predicate IsRecruiter(db: Db, userId: Id, p: Id) {
    p in db.recruiters && db.recruiters[p].userId == userId
  }

  ghost predicate SeekerFor(seekers: map<Id, SeekerProfile>, userId: Id) {
    exists p :: p in seekers && seekers[p].userId == userId
  }

  ghost predicate RecruiterFor(recruiters: map<Id, RecruiterProfile>, userId: Id) {
    exists p :: p in recruiters && recruiters[p].userId == userId
  }

  ghost predicate HasSeeker(db: Db, userId: Id) {
    SeekerFor(db.seekers, userId)
  }

  ghost predicate HasRecruiter(db: Db, userId: Id) {
    RecruiterFor(db.recruiters, userId)
  }

  ghost function UserByEmail(db: Db, email: string): Option<Id> {
    if EmailTaken(db, email) then
      var u :| u in db.users && db.users[u].email == email;
      Some(u)
    else None
  }

  ghost function FindSeeker(seekers: map<Id, SeekerProfile>, userId: Id): Option<Id> {
    if SeekerFor(seekers, userId) then
      var p :| p in seekers && seekers[p].userId == userId;
      Some(p)
    else None
  }

  ghost function FindRecruiter(recruiters: map<Id, RecruiterProfile>, userId: Id): Option<Id> {
    if RecruiterFor(recruiters, userId) then
      var p :| p in recruiters && recruiters[p].userId == userId;
      Some(p)
    else None
  }

  ghost function SeekerOf(db: Db, userId: Id): Option<Id> {
    FindSeeker(db.seekers, userId)
  }

  ghost function RecruiterOf(db: Db, userId: Id): Option<Id> {
    FindRecruiter(db.recruiters, userId)
  }

  /** The live applications of one (job, seeker) pair. */
  function ApplicationsOf(db: Db, jobId: Id, seekerId: Id): set<Id> {
    set a | a in db.applications && db.applications[a].jobId == jobId && db.applications[a].seekerId == seekerId
  }

  /** The saved rows of one (job, seeker) pair. */
  function SavedOf(db: Db, jobId: Id, seekerId: Id): set<Id> {
    set r | r in db.saved && db.saved[r].jobId == jobId && db.saved[r].seekerId == seekerId
  }

  /** scanJob reads salary_range and category into plain strings, which fails on NULL. */
  predicate Scannable(job: Job) {
    job.salaryRange.Some? && job.category.Some?
  }

  // ---- Statements ----

  ghost function InsertUser(db: Db, name: string, email: string, hash: string, roles: seq<Role>, now: Time)
    : (Db, Result<Id, Error>)
  {
    if EmailTaken(db, email) then (db, Failure(Pg(UniqueViolation)))
    else (db.(users := db.users[db.nextId := User(name, email, hash, roles, true, now, now)], nextId := db.nextId + 1),
          Success(db.nextId))
  }

  ghost function InsertSeeker(db: Db, userId: Id): (Db, Result<Id, Error>) {
    if HasSeeker(db, userId) then (db, Failure(Pg(UniqueViolation)))
    else if userId !in db.users then (db, Failure(Pg(ForeignKeyViolation)))
    else (db.(seekers := db.seekers[db.nextId := BlankProfile(userId)], nextId := db.nextId + 1), Success(db.nextId))
  }

  ghost function InsertRecruiter(db: Db, userId: Id, company: Company): (Db, Result<Id, Error>) {
    if HasRecruiter(db, userId) then (db, Failure(Pg(UniqueViolation)))
    else if userId !in db.users then (db, Failure(Pg(ForeignKeyViolation)))
    else (db.(recruiters := db.recruiters[db.nextId := RecruiterProfile(userId, company)], nextId := db.nextId + 1),
          Success(db.nextId))
  }

  function SetRoles(db: Db, userId: Id, roles: seq<Role>, now: Time): (Db, Result<Id, Error>) {
    if userId !in db.users then (db, Failure(Driver(NoRows)))
    else (db.(users := db.users[userId := db.users[userId].(roles := roles, updatedAt := now)]), Success(userId))
  }

  datatype SignupKind = SeekerSignup | RecruiterSignup(company: Company)

  function InitialRoles(kind: SignupKind): seq<Role> {
    if kind.SeekerSignup? then [JobSeeker] else [Recruiter]
  }

  /** A signup transaction: the users row and its profile row, or neither. */
  ghost function SignupTx(db: Db, kind: SignupKind, name: string, email: string, hash: string, now: Time)
    : (Db, Result<Id, Error>)
  {
    var (inserted, user) := InsertUser(db, name, email, hash, InitialRoles(kind), now);
    if user.Failure? then (db, user) else
    var (done, profile) := match kind
      case SeekerSignup => InsertSeeker(inserted, user.value)
      case RecruiterSignup(company) => InsertRecruiter(inserted, user.value, company);
    if profile.Failure? then (db, Failure(profile.error)) else (done, user)
  }

  /** The upgrade transaction: the new role list and the recruiter profile, or neither. */
  ghost function UpgradeTx(db: Db, userId: Id, roles: seq<Role>, company: Company, now: Time): (Db, Result<Id, Error>) {
    var (updated, user) := SetRoles(db, userId, roles, now);
    if user.Failure? then (db, user) else
    var (done, profile) := InsertRecruiter(updated, userId, company);
    if profile.Failure? then (db, Failure(profile.error)) else (done, user)
  }

  function InsertJob(db: Db, recruiterId: Id, f: JobForm, now: Time): (Db, Result<Id, Error>) {
    if recruiterId !in db.recruiters then (db, Failure(Pg(ForeignKeyViolation)))
    else
      var job := Job(recruiterId, f.title, f.description, f.requirements, f.location,
                     Some(f.salaryRange), Some(f.category), true, now, now);
      (db.(jobs := db.jobs[db.nextId := job], nextId := db.nextId + 1), Success(db.nextId))
  }

  function PatchJob(db: Db, jobId: Id, p: JobPatch, now: Time): Db {
    if jobId in db.jobs then db.(jobs := db.jobs[jobId := PatchedJob(db.jobs[jobId], p, now)]) else db
  }

  /** DELETE FROM jobs: both tables that reference jobs cascade. */
  function DeleteJob(db: Db, jobId: Id): Db {
    db.(jobs := db.jobs - {jobId},
        applications := map a | a in db.applications && db.applications[a].jobId != jobId :: db.applications[a],
        saved := map r | r in db.saved && db.saved[r].jobId != jobId :: db.saved[r])
  }

  function InsertApplication(db: Db, jobId: Id, seekerId: Id, coverLetter: string, now: Time): (Db, Result<Id, Error>) {
    if jobId !in db.jobs || seekerId !in db.seekers then (db, Failure(Pg(ForeignKeyViolation)))
    else
      (db.(applications := db.applications[db.nextId := Application(jobId, seekerId, coverLetter, Submitted, now, now)],
           nextId := db.nextId + 1), Success(db.nextId))
  }

  function SetStatus(db: Db, applicationId: Id, status: Status, now: Time): Db {
    if applicationId in db.applications then
      var row := db.applications[applicationId].(status := status, updatedAt := now);
      db.(applications := db.applications[applicationId := row])
    else db
  }

  function DeleteApplication(db: Db, applicationId: Id): Db {
    db.(applications := db.applications - {applicationId})
  }

  /** INSERT ... ON CONFLICT (job_id, job_seeker_id) DO UPDATE SET job_id = EXCLUDED.job_id: a held pair keeps its row. */
  ghost function UpsertSaved(db: Db, jobId: Id, seekerId: Id, now: Time): (Db, Result<Id, Error>) {
    if SavedOf(db, jobId, seekerId) != {} then
      var r :| r in SavedOf(db, jobId, seekerId);
      (db, Success(r))
    else if jobId !in db.jobs || seekerId !in db.seekers then (db, Failure(Pg(ForeignKeyViolation)))
    else (db.(saved := db.saved[db.nextId := SavedJob(jobId, seekerId, now)], nextId := db.nextId + 1),
          Success(db.nextId))
  }

  function DeleteSaved(db: Db, jobId: Id, seekerId: Id): Db {
    db.(saved := db.saved - SavedOf(db, jobId, seekerId))
  }
}
