/**
 The service methods of internal/services as small-step programs. A `Request` fixes the method and its
 arguments, a `Pc` is what the method holds between two statements, and `Advance` runs the next statement
 (or transaction, which PostgreSQL makes atomic) on the current tables. Other requests run in between.
 */
module Programs {
  import opened Wrappers
  import opened Errors
  import opened Schema

  /**
   `hash` is what bcrypt makes of the password, or None if it refuses it; `opens` is the set of stored
   hashes the given password matches.
   */
  datatype Request =
    | Signup(kind: SignupKind, name: string, email: string, password: string, hash: Option<string>)
    | Login(email: string, password: string, opens: set<string>)
    | Refresh(userId: Id)
    | Upgrade(userId: Id, company: Company)
    | CreateJob(userId: Id, form: JobForm)
    | UpdateJob(userId: Id, jobId: Id, patch: JobPatch)
    | RemoveJob(userId: Id, jobId: Id)
    | Review(userId: Id, applicationId: Id, status: Status)
    | Withdraw(userId: Id, applicationId: Id)
    | Unsave(userId: Id, jobId: Id)
    | Apply(userId: Id, jobId: Id, coverLetter: string)
    | Save(userId: Id, jobId: Id)

  datatype JobView = JobView(id: Id, job: Job, companyName: string)

  /** A row of GetApplicationsForJob: the application and its seeker. */
  datatype ApplicantView = ApplicantView(id: Id, row: Application, name: string, email: string,
                                         resumeUrl: string, bio: string, skills: seq<string>)

  datatype Value =
    | Tokens(userId: Id, roles: seq<Role>)
    | FetchedJob(view: JobView)
    | FetchedApplicant(applicant: ApplicantView)
    | Row(id: Id)
    | Done

  type Outcome = Result<Value, Error>

  /** Where a program stands: each constructor names what the statements so far established. */
  datatype Pc =
    | Start
    | EmailFree
    | RolesRead(roles: seq<Role>)
    | Resolved(profileId: Id)
    | Checked(profileId: Id)
    | NoDuplicate(profileId: Id)
    | Written(rowId: Id)
    | Authenticated(userId: Id, roles: seq<Role>)
    | Finished(outcome: Outcome)

  function Fail(r: Reason): Pc {
    Finished(Failure(App(r)))
  }

  // ---- Queries with a join ----

  /** GetJobByID: any error, a failed scan included, becomes "Job not found". */
  function FetchJob(db: Db, jobId: Id): Outcome {
    if jobId in db.jobs && db.jobs[jobId].recruiterId in db.recruiters && Scannable(db.jobs[jobId]) then
      var job := db.jobs[jobId];
      Success(FetchedJob(JobView(jobId, job, db.recruiters[job.recruiterId].company.name)))
    else Failure(App(JobNotFound))
  }

  predicate HasApplicant(db: Db, applicationId: Id) {
    && applicationId in db.applications
    && db.applications[applicationId].seekerId in db.seekers
    && db.seekers[db.applications[applicationId].seekerId].userId in db.users
  }

  /** The columns of an application with its seeker's; a NULL text is read as "". */
  function ViewApplicant(db: Db, applicationId: Id): ApplicantView
    requires HasApplicant(db, applicationId)
  {
    var row := db.applications[applicationId];
    var profile := db.seekers[row.seekerId];
    var user := db.users[profile.userId];
    ApplicantView(applicationId, row, user.name, user.email,
                  profile.resumeUrl.GetOr(""), profile.bio.GetOr(""), profile.skills)
  }

  function FetchApplicant(db: Db, applicationId: Id): Outcome {
    if HasApplicant(db, applicationId) then Success(FetchedApplicant(ViewApplicant(db, applicationId)))
    else Failure(Driver(NoRows))
  }

  /** The recruiter of the job an application belongs to. */
  function ReviewerOf(db: Db, applicationId: Id): Option<Id> {
    if applicationId in db.applications && db.applications[applicationId].jobId in db.jobs
    then Some(db.jobs[db.applications[applicationId].jobId].recruiterId)
    else None
  }

  // ---- The methods ----

  ghost function SignupStep(q: Request, pc: Pc, db: Db, now: Time): (Pc, Db)
    requires q.Signup?
  {
    match pc
    case Start =>
      if q.email == "" || q.password == "" then (Fail(CredentialsRequired), db)
      else if EmailTaken(db, q.email) then (Fail(UserExists), db)
      else (EmailFree, db)
    case EmailFree =>
      if q.hash.None? then (Fail(HashFailed), db) else
      var (after, r) := SignupTx(db, q.kind, q.name, q.email, q.hash.value, now);
      (if r.Success? then Authenticated(r.value, InitialRoles(q.kind)) else Finished(Failure(r.error)), after)
    case Authenticated(u, roles) => (Finished(Success(Tokens(u, roles))), db)
    case _ => (pc, db)
  }

  ghost function LoginStep(q: Request, pc: Pc, db: Db): Pc
    requires q.Login?
  {
    match pc
    case Start =>
      if q.email == "" || q.password == "" then Fail(CredentialsRequired) else
      var found := UserByEmail(db, q.email);
      if found.None? then Fail(InvalidLogin)
      else if !db.users[found.value].isActive then Fail(AccountDeactivated)
      else if db.users[found.value].password !in q.opens then Fail(InvalidLogin)
      else Authenticated(found.value, db.users[found.value].roles)
    case Authenticated(u, roles) => Finished(Success(Tokens(u, roles)))
    case _ => pc
  }

  function RefreshStep(q: Request, pc: Pc, db: Db): Pc
    requires q.Refresh?
  {
    match pc
    case Start =>
      if q.userId !in db.users then Fail(UserNotFound)
      else if !db.users[q.userId].isActive then Fail(AccountDeactivated)
      else Authenticated(q.userId, db.users[q.userId].roles)
    case Authenticated(u, roles) => Finished(Success(Tokens(u, roles)))
    case _ => pc
  }

  ghost function UpgradeStep(q: Request, pc: Pc, db: Db, now: Time): (Pc, Db)
    requires q.Upgrade?
  {
    match pc
    case Start =>
      if q.userId !in db.users then (Fail(UserNotFound), db)
      else if JobSeeker !in db.users[q.userId].roles then (Fail(OnlySeekersUpgrade), db)
      else if Recruiter in db.users[q.userId].roles then (Fail(AlreadyRecruiter), db)
      else (RolesRead(db.users[q.userId].roles), db)
    case RolesRead(roles) =>
      var (after, r) := UpgradeTx(db, q.userId, roles + [Recruiter], q.company, now);
      (if r.Success? then Authenticated(q.userId, roles + [Recruiter]) else Finished(Failure(r.error)), after)
    case Authenticated(u, roles) => (Finished(Success(Tokens(u, roles))), db)
    case _ => (pc, db)
  }

  ghost function ResolveRecruiter(db: Db, userId: Id): Pc {
    var found := RecruiterOf(db, userId);
    if found.Some? then Resolved(found.value) else Fail(NoRecruiterProfile)
  }

  ghost function ResolveSeeker(db: Db, userId: Id): Pc {
    var found := SeekerOf(db, userId);
    if found.Some? then Resolved(found.value) else Fail(NoSeekerProfile)
  }

  function CheckJobOwner(db: Db, jobId: Id, recruiterId: Id): Pc {
    if jobId !in db.jobs then Fail(JobNotFound)
    else if db.jobs[jobId].recruiterId != recruiterId then Fail(NotJobOwner)
    else Checked(recruiterId)
  }

  ghost function CreateJobStep(q: Request, pc: Pc, db: Db, now: Time): (Pc, Db)
    requires q.CreateJob?
  {
    match pc
    case Start => (ResolveRecruiter(db, q.userId), db)
    case Resolved(r) =>
      var (after, inserted) := InsertJob(db, r, q.form, now);
      (if inserted.Success? then Written(inserted.value) else Finished(Failure(inserted.error)), after)
    case Written(jobId) => (Finished(FetchJob(db, jobId)), db)
    case _ => (pc, db)
  }

  ghost function UpdateJobStep(q: Request, pc: Pc, db: Db, now: Time): (Pc, Db)
    requires q.UpdateJob?
  {
    match pc
    case Start => (ResolveRecruiter(db, q.userId), db)
    case Resolved(r) => (CheckJobOwner(db, q.jobId, r), db)
    case Checked(r) =>
      if q.patch == NO_CHANGE then (Finished(FetchJob(db, q.jobId)), db)
      else (Written(q.jobId), PatchJob(db, q.jobId, q.patch, now))
    case Written(jobId) => (Finished(FetchJob(db, jobId)), db)
    case _ => (pc, db)
  }

  ghost function RemoveJobStep(q: Request, pc: Pc, db: Db): (Pc, Db)
    requires q.RemoveJob?
  {
    match pc
    case Start => (ResolveRecruiter(db, q.userId), db)
    case Resolved(r) => (CheckJobOwner(db, q.jobId, r), db)
    case Checked(r) => (Finished(Success(Done)), DeleteJob(db, q.jobId))
    case _ => (pc, db)
  }

  ghost function ReviewStep(q: Request, pc: Pc, db: Db, now: Time): (Pc, Db)
    requires q.Review?
  {
    match pc
    case Start => (ResolveRecruiter(db, q.userId), db)
    case Resolved(r) =>
      var owner := ReviewerOf(db, q.applicationId);
      if owner.None? then (Fail(ApplicationNotFound), db)
      else if owner.value != r then (Fail(NotApplicationOwner), db)
      else (Checked(r), db)
    case Checked(r) => (Written(q.applicationId), SetStatus(db, q.applicationId, q.status, now))
    case Written(id) => (Finished(FetchApplicant(db, id)), db)
    case _ => (pc, db)
  }

  ghost function WithdrawStep(q: Request, pc: Pc, db: Db): (Pc, Db)
    requires q.Withdraw?
  {
    match pc
    case Start => (ResolveSeeker(db, q.userId), db)
    case Resolved(s) =>
      if q.applicationId !in db.applications then (Fail(ApplicationNotFound), db)
      else if db.applications[q.applicationId].seekerId != s then (Fail(NotApplicationOwner), db)
      else (Checked(s), db)
    case Checked(s) => (Finished(Success(Done)), DeleteApplication(db, q.applicationId))
    case _ => (pc, db)
  }

  ghost function UnsaveStep(q: Request, pc: Pc, db: Db): (Pc, Db)
    requires q.Unsave?
  {
    match pc
    case Start => (ResolveSeeker(db, q.userId), db)
    case Resolved(s) =>
      (if SavedOf(db, q.jobId, s) == {} then Fail(SavedJobNotFound) else Finished(Success(Done)),
       DeleteSaved(db, q.jobId, s))
    case _ => (pc, db)
  }

  function Answer(r: Result<Id, Error>): Outcome {
    if r.Success? then Success(Row(r.value)) else Failure(r.error)
  }

  function Inserted(r: Result<Id, Error>): Pc {
    Finished(Answer(r))
  }

  ghost function ApplyStep(q: Request, pc: Pc, db: Db, now: Time): (Pc, Db)
    requires q.Apply?
  {
    match pc
    case Start => (ResolveSeeker(db, q.userId), db)
    case Resolved(s) =>
      if q.jobId !in db.jobs then (Fail(JobNotFound), db)
      else if !db.jobs[q.jobId].isActive then (Fail(JobInactive), db)
      else (Checked(s), db)
    case Checked(s) =>
      (if ApplicationsOf(db, q.jobId, s) != {} then Fail(AlreadyApplied) else NoDuplicate(s), db)
    case NoDuplicate(s) =>
      var (after, r) := InsertApplication(db, q.jobId, s, q.coverLetter, now);
      (Inserted(r), after)
    case _ => (pc, db)
  }

  ghost function SaveStep(q: Request, pc: Pc, db: Db, now: Time): (Pc, Db)
    requires q.Save?
  {
    match pc
    case Start => (ResolveSeeker(db, q.userId), db)
    case Resolved(s) => (if q.jobId !in db.jobs then Fail(JobNotFound) else Checked(s), db)
    case Checked(s) =>
      var (after, r) := UpsertSaved(db, q.jobId, s, now);
      (Inserted(r), after)
    case _ => (pc, db)
  }

  ghost function Advance(q: Request, pc: Pc, db: Db, now: Time): (Pc, Db) {
    match q
    case Signup(_, _, _, _, _) => SignupStep(q, pc, db, now)
    case Login(_, _, _) => (LoginStep(q, pc, db), db)
    case Refresh(_) => (RefreshStep(q, pc, db), db)
    case Upgrade(_, _) => UpgradeStep(q, pc, db, now)
    case CreateJob(_, _) => CreateJobStep(q, pc, db, now)
    case UpdateJob(_, _, _) => UpdateJobStep(q, pc, db, now)
    case RemoveJob(_, _) => RemoveJobStep(q, pc, db)
    case Review(_, _, _) => ReviewStep(q, pc, db, now)
    case Withdraw(_, _) => WithdrawStep(q, pc, db)
    case Unsave(_, _) => UnsaveStep(q, pc, db)
    case Apply(_, _, _) => ApplyStep(q, pc, db, now)
    case Save(_, _) => SaveStep(q, pc, db, now)
  }
}
