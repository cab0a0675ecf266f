/**
 The services of internal/services, statement by statement over the shared pool. Each method is proved to serve its
 request: whatever the other clients do in between, its answer and the tables it leaves are those of its program.
 */
module Services {
  import opened Wrappers
  import opened Errors
  import opened Schema
  import opened Programs
  import opened Stability
  import opened SetClause
  import opened Database
  import opened Serving
  import opened Listing
  import opened Pagination

  // ---- internal/services/auth.go ----

  class AuthService {
    const pool: Pool

    constructor (pool: Pool)
      ensures this.pool == pool
    {
      this.pool := pool;
    }

    /** `hash` is what HashPassword returns. */
    method SignupJobSeeker(name: string, email: string, password: string, hash: Option<string>) returns (r: Outcome)
      requires pool.Valid()
      modifies pool
      ensures pool.Valid()
      ensures Served(Signup(SeekerSignup, name, email, password, hash),
                     old(pool.tables), pool.others, old(pool.tick), pool.tick, r, pool.tables)
    {
      ghost var q := Signup(SeekerSignup, name, email, password, hash);
      ghost var db, others, t := pool.tables, pool.others, pool.tick;
      Begins(q, db, others, t);
      Runs(q, db, others, t, t, Start, db);
      if email == "" || password == "" {
        return Failure(App(CredentialsRequired));
      }
      var taken := pool.EmailExists(email);
      if taken {
        return Failure(App(UserExists));
      }
      pool.Yield();

      Runs(q, db, others, t, t + 1, EmailFree, pool.tables);
      if hash.None? {
        return Failure(App(HashFailed));
      }
      var begun := pool.tables;
      var user := pool.InsertUser(name, email, hash.value, [JobSeeker]);
      if user.Failure? {
        pool.Rollback(begun);
        return Failure(user.error);
      }
      var profile := pool.InsertSeeker(user.value);
      if profile.Failure? {
        pool.Rollback(begun);
        return Failure(profile.error);
      }
      pool.Yield();

      Runs(q, db, others, t, t + 2, Authenticated(user.value, [JobSeeker]), pool.tables);
      r := Success(Tokens(user.value, [JobSeeker]));
    }

    method SignupRecruiter(name: string, email: string, password: string, company: Company, hash: Option<string>)
      returns (r: Outcome)
      requires pool.Valid()
      modifies pool
      ensures pool.Valid()
      ensures Served(Signup(RecruiterSignup(company), name, email, password, hash),
                     old(pool.tables), pool.others, old(pool.tick), pool.tick, r, pool.tables)
    {
      ghost var q := Signup(RecruiterSignup(company), name, email, password, hash);
      ghost var db, others, t := pool.tables, pool.others, pool.tick;
      Begins(q, db, others, t);
      Runs(q, db, others, t, t, Start, db);
      if email == "" || password == "" {
        return Failure(App(CredentialsRequired));
      }
      var taken := pool.EmailExists(email);
      if taken {
        return Failure(App(UserExists));
      }
      pool.Yield();

      Runs(q, db, others, t, t + 1, EmailFree, pool.tables);
      if hash.None? {
        return Failure(App(HashFailed));
      }
      var begun := pool.tables;
      var user := pool.InsertUser(name, email, hash.value, [Recruiter]);
      if user.Failure? {
        pool.Rollback(begun);
        return Failure(user.error);
      }
      var profile := pool.InsertRecruiter(user.value, company);
      if profile.Failure? {
        pool.Rollback(begun);
        return Failure(profile.error);
      }
      pool.Yield();

      Runs(q, db, others, t, t + 2, Authenticated(user.value, [Recruiter]), pool.tables);
      r := Success(Tokens(user.value, [Recruiter]));
    }

    /** `opens` is the set of hashes that ComparePasswords accepts the password for. */
    method Login(email: string, password: string, opens: set<string>) returns (r: Outcome)
      requires pool.Valid()
      modifies pool
      ensures pool.Valid()
      ensures Served(Request.Login(email, password, opens), old(pool.tables), pool.others, old(pool.tick), pool.tick, r, pool.tables)
    {
      ghost var q, db, others, t := Request.Login(email, password, opens), pool.tables, pool.others, pool.tick;
      Begins(q, db, others, t);
      Runs(q, db, others, t, t, Start, db);
      if email == "" || password == "" {
        return Failure(App(CredentialsRequired));
      }
      var found := pool.SelectUserByEmail(email);
      if found.None? {
        return Failure(App(InvalidLogin));
      }
      var user := pool.tables.users[found.value];
      if !user.isActive {
        return Failure(App(AccountDeactivated));
      }
      if user.password !in opens {
        return Failure(App(InvalidLogin));
      }
      pool.Yield();

      Runs(q, db, others, t, t + 1, Authenticated(found.value, user.roles), pool.tables);
      r := Success(Tokens(found.value, user.roles));
    }

    /** `userId` is the one VerifyToken found in the refresh token. */
    method RefreshTokens(userId: Id) returns (r: Outcome)
      requires pool.Valid()
      modifies pool
      ensures pool.Valid()
      ensures Served(Refresh(userId), old(pool.tables), pool.others, old(pool.tick), pool.tick, r, pool.tables)
    {
      ghost var q, db, others, t := Refresh(userId), pool.tables, pool.others, pool.tick;
      Begins(q, db, others, t);
      Runs(q, db, others, t, t, Start, db);
      if userId !in pool.tables.users {
        return Failure(App(UserNotFound));
      }
      var user := pool.tables.users[userId];
      if !user.isActive {
        return Failure(App(AccountDeactivated));
      }
      pool.Yield();

      Runs(q, db, others, t, t + 1, Authenticated(userId, user.roles), pool.tables);
      r := Success(Tokens(userId, user.roles));
    }

    method UpgradeToRecruiter(userId: Id, company: Company) returns (r: Outcome)
      requires pool.Valid()
      modifies pool
      ensures pool.Valid()
      ensures Served(Upgrade(userId, company), old(pool.tables), pool.others, old(pool.tick), pool.tick, r, pool.tables)
    {
      ghost var q, db, others, t := Upgrade(userId, company), pool.tables, pool.others, pool.tick;
      Begins(q, db, others, t);
      Runs(q, db, others, t, t, Start, db);
      if userId !in pool.tables.users {
        return Failure(App(UserNotFound));
      }
      var roles := pool.tables.users[userId].roles;
      var hasJobSeeker, hasRecruiter := RoleFlags(roles);
      if !hasJobSeeker {
        return Failure(App(OnlySeekersUpgrade));
      }
      if hasRecruiter {
        return Failure(App(AlreadyRecruiter));
      }
      pool.Yield();

      Runs(q, db, others, t, t + 1, RolesRead(roles), pool.tables);
      var begun := pool.tables;
      var newRoles := roles + [Recruiter];
      var user := pool.SetRoles(userId, newRoles);
      if user.Failure? {
        pool.Rollback(begun);
        return Failure(user.error);
      }
      var profile := pool.InsertRecruiter(userId, company);
      if profile.Failure? {
        pool.Rollback(begun);
        return Failure(profile.error);
      }
      pool.Yield();

      Runs(q, db, others, t, t + 2, Authenticated(userId, newRoles), pool.tables);
      r := Success(Tokens(userId, newRoles));
    }

    /** The loop of UpgradeToRecruiter. */
    static method RoleFlags(roles: seq<Role>) returns (hasJobSeeker: bool, hasRecruiter: bool)
      ensures hasJobSeeker == (JobSeeker in roles) && hasRecruiter == (Recruiter in roles)
    {
      hasJobSeeker, hasRecruiter := false, false;
      for i := 0 to |roles|
        invariant hasJobSeeker == (JobSeeker in roles[..i]) && hasRecruiter == (Recruiter in roles[..i])
      {
        if roles[i] == JobSeeker {
          hasJobSeeker := true;
        }
        if roles[i] == Recruiter {
          hasRecruiter := true;
        }
      }
    }
  }

  // ---- internal/services/jobseeker.go ----

  class JobSeekerService {
    const pool: Pool

    constructor (pool: Pool)
      ensures this.pool == pool
    {
      this.pool := pool;
    }

    /** Resolves the user's profile for a request; if there is one, the others run. */
    method GetJobSeekerId(userId: Id, ghost q: Request) returns (found: Option<Id>)
      requires pool.Valid() && AsSeeker(q) && !q.Upgrade? && q.userId == userId
      modifies pool
      ensures pool.Valid()
      ensures found.None? ==>
        Served(q, old(pool.tables), pool.others, old(pool.tick), pool.tick, Failure(App(NoSeekerProfile)), pool.tables)
      ensures found.Some? ==>
        pool.tick == old(pool.tick) + 1
        && Reached(q, old(pool.tables), pool.others, old(pool.tick), pool.tick, Resolved(found.value), pool.tables)
    {
      Begins(q, pool.tables, pool.others, pool.tick);
      Runs(q, pool.tables, pool.others, pool.tick, pool.tick, Start, pool.tables);
      found := pool.SelectSeekerId(userId);
      if found.Some? {
        pool.Yield();
      }
    }

    method ApplyToJob(userId: Id, jobId: Id, coverLetter: string) returns (r: Outcome)
      requires pool.Valid()
      modifies pool
      ensures pool.Valid()
      ensures r.Success? ==> r.value.Row?
      ensures Served(Apply(userId, jobId, coverLetter), old(pool.tables), pool.others, old(pool.tick), pool.tick, r, pool.tables)
    {
      ghost var q, db, others, t := Apply(userId, jobId, coverLetter), pool.tables, pool.others, pool.tick;
      var seeker := GetJobSeekerId(userId, q);
      if seeker.None? {
        return Failure(App(NoSeekerProfile));
      }

      Runs(q, db, others, t, t + 1, Resolved(seeker.value), pool.tables);
      if jobId !in pool.tables.jobs {
        return Failure(App(JobNotFound));
      }
      if !pool.tables.jobs[jobId].isActive {
        return Failure(App(JobInactive));
      }
      pool.Yield();

      ApplyChecks(q, db, others, t, t + 2, seeker.value, pool.tables);
      var applied := pool.ApplicationExists(jobId, seeker.value);
      if applied {
        return Failure(App(AlreadyApplied));
      }
      pool.Yield();

      ApplyInserts(q, db, others, t, t + 3, seeker.value, pool.tables);
      var inserted := pool.InsertApplication(jobId, seeker.value, coverLetter);
      r := Answer(inserted);
    }

    method SaveJob(userId: Id, jobId: Id) returns (r: Outcome)
      requires pool.Valid()
      modifies pool
      ensures pool.Valid()
      ensures r.Success? ==> r.value.Row?
      ensures Served(Save(userId, jobId), old(pool.tables), pool.others, old(pool.tick), pool.tick, r, pool.tables)
    {
      ghost var q, db, others, t := Save(userId, jobId), pool.tables, pool.others, pool.tick;
      var seeker := GetJobSeekerId(userId, q);
      if seeker.None? {
        return Failure(App(NoSeekerProfile));
      }

      Runs(q, db, others, t, t + 1, Resolved(seeker.value), pool.tables);
      if jobId !in pool.tables.jobs {
        return Failure(App(JobNotFound));
      }
      pool.Yield();

      Runs(q, db, others, t, t + 2, Checked(seeker.value), pool.tables);
      var upserted := pool.UpsertSaved(jobId, seeker.value);
      r := Answer(upserted);
    }

    method WithdrawApplication(userId: Id, applicationId: Id) returns (r: Outcome)
      requires pool.Valid()
      modifies pool
      ensures pool.Valid()
      ensures Served(Withdraw(userId, applicationId), old(pool.tables), pool.others, old(pool.tick), pool.tick, r, pool.tables)
    {
      ghost var q, db, others, t := Withdraw(userId, applicationId), pool.tables, pool.others, pool.tick;
      var seeker := GetJobSeekerId(userId, q);
      if seeker.None? {
        return Failure(App(NoSeekerProfile));
      }

      Runs(q, db, others, t, t + 1, Resolved(seeker.value), pool.tables);
      if applicationId !in pool.tables.applications {
        return Failure(App(ApplicationNotFound));
      }
      if pool.tables.applications[applicationId].seekerId != seeker.value {
        return Failure(App(NotApplicationOwner));
      }
      pool.Yield();

      Runs(q, db, others, t, t + 2, Checked(seeker.value), pool.tables);
      pool.DeleteApplication(applicationId);
      r := Success(Done);
    }

    method UnsaveJob(userId: Id, jobId: Id) returns (r: Outcome)
      requires pool.Valid()
      modifies pool
      ensures pool.Valid()
      ensures Served(Unsave(userId, jobId), old(pool.tables), pool.others, old(pool.tick), pool.tick, r, pool.tables)
    {
      ghost var q, db, others, t := Unsave(userId, jobId), pool.tables, pool.others, pool.tick;
      var seeker := GetJobSeekerId(userId, q);
      if seeker.None? {
        return Failure(App(NoSeekerProfile));
      }

      Runs(q, db, others, t, t + 1, Resolved(seeker.value), pool.tables);
      var rows := pool.DeleteSaved(jobId, seeker.value);
      if rows == 0 {
        return Failure(App(SavedJobNotFound));
      }
      r := Success(Done);
    }

    method GetApplications(userId: Id) returns (r: Result<seq<SummaryView>, Error>)
      requires pool.Valid()
      modifies pool
      ensures pool.Valid()
      ensures var seeker := SeekerOf(old(pool.tables), userId);
        r == if seeker.None? then Failure(App(NoSeekerProfile)) else Success(SeekerList(pool.tables, seeker.value))
      ensures pool.tables == if r.Failure? then old(pool.tables)
                             else FoundAt(pool.others, old(pool.tick), old(pool.tables))
    {
      var seeker := pool.SelectSeekerId(userId);
      if seeker.None? {
        return Failure(App(NoSeekerProfile));
      }
      pool.Yield();

      var rows := SeekerList(pool.tables, seeker.value);
      var apps: seq<SummaryView> := [];
      var next := 0;
      while next < |rows|
        invariant 0 <= next <= |rows| && apps == rows[..next]
      {
        apps := apps + [rows[next]];
        next := next + 1;
      }
      assert rows[..|rows|] == rows;
      r := Success(apps);
    }
  }

  // ---- internal/services/recruiter.go ----

  class RecruiterService {
    const pool: Pool

    constructor (pool: Pool)
      ensures this.pool == pool
    {
      this.pool := pool;
    }

    /** Resolves the user's profile for a request; if there is one, the others run. */
    method GetRecruiterId(userId: Id, ghost q: Request) returns (found: Option<Id>)
      requires pool.Valid() && AsRecruiter(q) && q.userId == userId
      modifies pool
      ensures pool.Valid()
      ensures found.None? ==>
        Served(q, old(pool.tables), pool.others, old(pool.tick), pool.tick, Failure(App(NoRecruiterProfile)), pool.tables)
      ensures found.Some? ==>
        pool.tick == old(pool.tick) + 1
        && Reached(q, old(pool.tables), pool.others, old(pool.tick), pool.tick, Resolved(found.value), pool.tables)
    {
      Begins(q, pool.tables, pool.others, pool.tick);
      Runs(q, pool.tables, pool.others, pool.tick, pool.tick, Start, pool.tables);
      found := pool.SelectRecruiterId(userId);
      if found.Some? {
        pool.Yield();
      }
    }

    method UpdateApplicationStatus(userId: Id, applicationId: Id, status: Status) returns (r: Outcome)
      requires pool.Valid()
      modifies pool
      ensures pool.Valid()
      ensures Served(Review(userId, applicationId, status), old(pool.tables), pool.others, old(pool.tick), pool.tick, r, pool.tables)
    {
      ghost var q, db, others, t := Review(userId, applicationId, status), pool.tables, pool.others, pool.tick;
      var recruiter := GetRecruiterId(userId, q);
      if recruiter.None? {
        return Failure(App(NoRecruiterProfile));
      }

      Runs(q, db, others, t, t + 1, Resolved(recruiter.value), pool.tables);
      var owner := ReviewerOf(pool.tables, applicationId);
      if owner.None? {
        return Failure(App(ApplicationNotFound));
      }
      if owner.value != recruiter.value {
        return Failure(App(NotApplicationOwner));
      }
      pool.Yield();

      ReviewWrites(q, db, others, t, t + 2, recruiter.value, pool.tables);
      pool.SetStatus(applicationId, status);
      pool.Yield();

      Fetches(q, db, others, t, t + 3, applicationId, pool.tables);
      r := FetchApplicant(pool.tables, applicationId);
    }

    method GetApplicationsForJob(userId: Id, jobId: Id) returns (r: Result<seq<ApplicantView>, Error>)
      requires pool.Valid()
      modifies pool
      ensures pool.Valid()
      ensures r.Success? ==> r.value == ApplicantList(pool.tables, jobId)
      ensures var recruiter, checked := RecruiterOf(old(pool.tables), userId), FoundAt(pool.others, old(pool.tick), old(pool.tables));
        if recruiter.None? then r == Failure(App(NoRecruiterProfile)) && pool.tables == old(pool.tables)
        else if jobId !in checked.jobs then r == Failure(App(JobNotFound)) && pool.tables == checked
        else if checked.jobs[jobId].recruiterId != recruiter.value then
          r == Failure(App(NotJobOwner)) && pool.tables == checked
        else r.Success? && pool.tables == FoundAt(pool.others, old(pool.tick) + 1, checked)
    {
      var recruiter := pool.SelectRecruiterId(userId);
      if recruiter.None? {
        return Failure(App(NoRecruiterProfile));
      }
      pool.Yield();

      if jobId !in pool.tables.jobs {
        return Failure(App(JobNotFound));
      }
      if pool.tables.jobs[jobId].recruiterId != recruiter.value {
        return Failure(App(NotJobOwner));
      }
      pool.Yield();

      var rows := ApplicantList(pool.tables, jobId);
      var apps: seq<ApplicantView> := [];
      var next := 0;
      while next < |rows|
        invariant 0 <= next <= |rows| && apps == rows[..next]
      {
        apps := apps + [rows[next]];
        next := next + 1;
      }
      assert rows[..|rows|] == rows;
      r := Success(apps);
    }
  }

  // ---- internal/services/job.go ----

  datatype JobsPage = JobsPage(jobs: seq<JobRow>, total: nat, page: int, pageSize: int, totalPages: int)

  /** What the row loop makes of a result set: every row in order, or a scan error. */
  ghost predicate Scanned(rows: seq<JobView>, r: Result<seq<JobRow>, Error>) {
    && (if forall v :: v in rows ==> Scannable(v.job) then r.Success? else r == Failure(Driver(NullIntoString)))
    && (r.Success? ==> |r.value| == |rows| && forall i :: 0 <= i < |rows| ==> ScanJob(rows[i]) == Success(r.value[i]))
  }

  ghost predicate Paged(rows: seq<JobView>, total: nat, page: int, size: nat, r: Result<JobsPage, Error>)
    requires 0 < size
  {
    && (r.Success? ==> r.value.(jobs := []) == JobsPage([], total, page, size, TotalPages(total, size)))
    && Scanned(rows, if r.Success? then Success(r.value.jobs) else Failure(r.error))
  }

  class JobService {
    const pool: Pool

    constructor (pool: Pool)
      ensures this.pool == pool
    {
      this.pool := pool;
    }

    /** Resolves the user's profile for a request; if there is one, the others run. */
    method GetRecruiterId(userId: Id, ghost q: Request) returns (found: Option<Id>)
      requires pool.Valid() && AsRecruiter(q) && q.userId == userId
      modifies pool
      ensures pool.Valid()
      ensures found.None? ==>
        Served(q, old(pool.tables), pool.others, old(pool.tick), pool.tick, Failure(App(NoRecruiterProfile)), pool.tables)
      ensures found.Some? ==>
        pool.tick == old(pool.tick) + 1
        && Reached(q, old(pool.tables), pool.others, old(pool.tick), pool.tick, Resolved(found.value), pool.tables)
    {
      Begins(q, pool.tables, pool.others, pool.tick);
      Runs(q, pool.tables, pool.others, pool.tick, pool.tick, Start, pool.tables);
      found := pool.SelectRecruiterId(userId);
      if found.Some? {
        pool.Yield();
      }
    }

    method CreateJob(userId: Id, req: JobForm) returns (r: Outcome)
      requires pool.Valid()
      modifies pool
      ensures pool.Valid()
      ensures Served(Request.CreateJob(userId, req), old(pool.tables), pool.others, old(pool.tick), pool.tick, r, pool.tables)
    {
      ghost var q, db, others, t := Request.CreateJob(userId, req), pool.tables, pool.others, pool.tick;
      var recruiter := GetRecruiterId(userId, q);
      if recruiter.None? {
        return Failure(App(NoRecruiterProfile));
      }

      Runs(q, db, others, t, t + 1, Resolved(recruiter.value), pool.tables);
      var inserted := pool.InsertJob(recruiter.value, req);
      if inserted.Failure? {
        return Failure(inserted.error);
      }
      pool.Yield();

      Fetches(q, db, others, t, t + 2, inserted.value, pool.tables);
      r := FetchJob(pool.tables, inserted.value);
    }

    /** Builds the statement and runs it, unless there is nothing to update. It has no error to return. */
    method ExecPatch(jobId: Id, req: JobPatch) returns (updated: bool)
      requires pool.Valid()
      modifies pool`tables
      ensures pool.Valid() && updated == (req != NO_CHANGE)
      ensures pool.tables == if updated then PatchJob(old(pool.tables), jobId, req, pool.Now()) else old(pool.tables)
    {
      var compiled := BuildUpdate(jobId, req);
      if compiled.None? {
        return false;
      }
      CompiledUpdateMeansPatch(pool.tables, jobId, req, pool.Now());
      var changed := pool.Exec(compiled.value.0, compiled.value.1);
      assert changed.Success?;
      updated := true;
    }

    method UpdateJob(userId: Id, jobId: Id, req: JobPatch) returns (r: Outcome)
      requires pool.Valid()
      modifies pool
      ensures pool.Valid()
      ensures Served(Request.UpdateJob(userId, jobId, req), old(pool.tables), pool.others, old(pool.tick), pool.tick, r, pool.tables)
    {
      ghost var q, db, others, t := Request.UpdateJob(userId, jobId, req), pool.tables, pool.others, pool.tick;
      var recruiter := GetRecruiterId(userId, q);
      if recruiter.None? {
        return Failure(App(NoRecruiterProfile));
      }

      ChecksOwner(q, db, others, t, t + 1, recruiter.value, pool.tables);
      if jobId !in pool.tables.jobs {
        return Failure(App(JobNotFound));
      }
      if pool.tables.jobs[jobId].recruiterId != recruiter.value {
        return Failure(App(NotJobOwner));
      }
      pool.Yield();

      UpdateWrites(q, db, others, t, t + 2, recruiter.value, pool.tables);
      var updated := ExecPatch(jobId, req);
      if !updated {
        r := FetchJob(pool.tables, jobId);
        return;
      }
      pool.Yield();

      Fetches(q, db, others, t, t + 3, jobId, pool.tables);
      r := FetchJob(pool.tables, jobId);
    }

    method DeleteJob(userId: Id, jobId: Id) returns (r: Outcome)
      requires pool.Valid()
      modifies pool
      ensures pool.Valid()
      ensures Served(RemoveJob(userId, jobId), old(pool.tables), pool.others, old(pool.tick), pool.tick, r, pool.tables)
    {
      ghost var q, db, others, t := RemoveJob(userId, jobId), pool.tables, pool.others, pool.tick;
      var recruiter := GetRecruiterId(userId, q);
      if recruiter.None? {
        return Failure(App(NoRecruiterProfile));
      }

      ChecksOwner(q, db, others, t, t + 1, recruiter.value, pool.tables);
      if jobId !in pool.tables.jobs {
        return Failure(App(JobNotFound));
      }
      if pool.tables.jobs[jobId].recruiterId != recruiter.value {
        return Failure(App(NotJobOwner));
      }
      pool.Yield();

      Runs(q, db, others, t, t + 2, Checked(recruiter.value), pool.tables);
      pool.DeleteJob(jobId);
      r := Success(Done);
    }

    method GetJobsByRecruiter(userId: Id) returns (r: Result<seq<JobRow>, Error>)
      requires pool.Valid()
      modifies pool
      ensures pool.Valid()
      ensures var recruiter, found := RecruiterOf(old(pool.tables), userId), FoundAt(pool.others, old(pool.tick), old(pool.tables));
        if recruiter.None? then r == Failure(App(NoRecruiterProfile)) && pool.tables == old(pool.tables)
        else Scanned(Rows(found, RecruiterList(found, recruiter.value)), r) && pool.tables == found
    {
      var recruiter := pool.SelectRecruiterId(userId);
      if recruiter.None? {
        return Failure(App(NoRecruiterProfile));
      }
      pool.Yield();

      r := ScanJobs(Rows(pool.tables, RecruiterList(pool.tables, recruiter.value)));
    }

    /** `like` is ILIKE; `early` is as in Response. */
    method GetAllJobs(search: string, category: string, location: string, page: int, pageSize: int,
                      like: Like, early: bool)
      returns (r: Result<JobsPage, Error>)
      requires pool.Valid()
      modifies pool
      ensures pool.Valid()
      ensures pool.tables == FoundAt(pool.others, old(pool.tick), old(pool.tables))
      ensures var f, size := Filter(search, category, location), ClampSize(pageSize);
        var found := FoundAt(pool.others, old(pool.tick), old(pool.tables));
        var ids := Response(JobList(found, like, f), ClampPage(page), size, early);
        if ids.Failure? then r == Failure(ids.error)
        else Paged(Rows(found, ids.value), |Counted(old(pool.tables), like, f)|, ClampPage(page), size, r)
    {
      var pageNo := page;
      if pageNo < 1 {
        pageNo := 1;
      }
      var size := pageSize;
      if size < 1 || size > 100 {
        size := 10;
      }
      var offset := Wrap64((pageNo - 1) * size);
      assert pageNo == ClampPage(page) && size == ClampSize(pageSize) && offset == Offset(pageNo, size);
      var f := Filter(search, category, location);
      var total := |Counted(pool.tables, like, f)|;
      pool.Yield();

      var ids := Fetch(JobList(pool.tables, like, f), size, offset, early);
      if ids.Failure? {
        return Failure(ids.error);
      }
      var jobs := ScanJobs(Rows(pool.tables, ids.value));
      if jobs.Failure? {
        return Failure(jobs.error);
      }
      r := Success(JobsPage(jobs.value, total, pageNo, size, TotalPages(total, size)));
    }
  }
}
