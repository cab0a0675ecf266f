/**
 What each request does when no other client runs between its statements: its answer and every column it writes, read
 off the tables it starts on. With Serving.ServedOnce this is the only answer a method of Services can give then.
 */
module Answers {
  import opened Wrappers
  import opened Errors
  import opened Schema
  import opened Integrity
  import opened Programs
  import opened Database
  import opened Serving

  /** The request, served alone at time `now` from tables `db`, answers `r` and leaves the tables `left`. */
  ghost predicate Alone(q: Request, db: Db, now: Time, r: Outcome, left: Db) {
    exists u: nat :: Served(q, db, Schedule([], now), 0, u, r, left)
  }

  lemma AloneOnce(q: Request, db: Db, now: Time, r: Outcome, left: Db, r': Outcome, left': Db)
    requires Alone(q, db, now, r, left) && Alone(q, db, now, r', left')
    ensures r == r' && left == left'
  {
    var u: nat :| Served(q, db, Schedule([], now), 0, u, r, left);
    var v: nat :| Served(q, db, Schedule([], now), 0, v, r', left');
    ServedOnce(q, db, Schedule([], now), 0, u, r, left, v, r', left');
  }

  /** The request, served alone, stands at `pc` and finds the tables `seen`. */
  ghost predicate Stands(q: Request, db: Db, now: Time, u: nat, pc: Pc, seen: Db) {
    Reached(q, db, Schedule([], now), 0, u, pc, seen)
  }

  lemma Starts(q: Request, db: Db, now: Time)
    ensures Stands(q, db, now, 0, Start, db)
  {
    Begins(q, db, Schedule([], now), 0);
  }

  lemma Continues(q: Request, db: Db, now: Time, u: nat, pc: Pc, seen: Db)
    requires Stands(q, db, now, u, pc, seen) && !pc.Finished?
    ensures var (next, left) := Advance(q, pc, seen, now);
      if next.Finished? then Alone(q, db, now, next.outcome, left) else Stands(q, db, now, u + 1, next, left)
  {
    Runs(q, db, Schedule([], now), 0, u, pc, seen);
    var (next, left) := Advance(q, pc, seen, now);
    if next.Finished? {
      assert Served(q, db, Schedule([], now), 0, u, next.outcome, left);
    }
  }

  lemma FoundSeeker(db: Db, u: Id, p: Id)
    requires ProfilesUnique(db.seekers, db.recruiters) && IsSeeker(db, u, p)
    ensures SeekerOf(db, u) == Some(p)
  {
  }

  lemma FoundRecruiter(db: Db, u: Id, p: Id)
    requires ProfilesUnique(db.seekers, db.recruiters) && IsRecruiter(db, u, p)
    ensures RecruiterOf(db, u) == Some(p)
  {
  }

  // ---- internal/services/auth.go ----

  predicate BadInput(email: string, password: string) {
    email == "" || password == ""
  }

  /** A login: the user with that email and a password that opens the stored hash, with the whole role list. */
  lemma LoginAlone(db: Db, email: string, password: string, opens: set<string>, now: Time, u: Id)
    requires EmailsUnique(db.users)
    ensures var q := Login(email, password, opens);
      && (BadInput(email, password) ==> Alone(q, db, now, Failure(App(CredentialsRequired)), db))
      && (!BadInput(email, password) ==>
            && ((forall v :: v in db.users ==> db.users[v].email != email) ==>
                  Alone(q, db, now, Failure(App(InvalidLogin)), db))
            && (u in db.users && db.users[u].email == email ==>
                  if !db.users[u].isActive then Alone(q, db, now, Failure(App(AccountDeactivated)), db)
                  else if db.users[u].password in opens then
                    Alone(q, db, now, Success(Tokens(u, db.users[u].roles)), db)
                  else Alone(q, db, now, Failure(App(InvalidLogin)), db)))
  {
    var q := Login(email, password, opens);
    Starts(q, db, now);
    Continues(q, db, now, 0, Start, db);
    if !BadInput(email, password) && u in db.users && db.users[u].email == email {
      assert UserByEmail(db, email) == Some(u);
      if db.users[u].isActive && db.users[u].password in opens {
        Continues(q, db, now, 1, Authenticated(u, db.users[u].roles), db);
      }
    }
  }

  /** A refresh: the user the token names, with the whole role list of now. */
  lemma RefreshAlone(db: Db, u: Id, now: Time)
    ensures var q := Refresh(u);
      if u !in db.users then Alone(q, db, now, Failure(App(UserNotFound)), db)
      else if !db.users[u].isActive then Alone(q, db, now, Failure(App(AccountDeactivated)), db)
      else Alone(q, db, now, Success(Tokens(u, db.users[u].roles)), db)
  {
    var q := Refresh(u);
    Starts(q, db, now);
    Continues(q, db, now, 0, Start, db);
    if u in db.users && db.users[u].isActive {
      Continues(q, db, now, 1, Authenticated(u, db.users[u].roles), db);
    }
  }

  /** The two rows of a signup: every column, and nothing else new. */
  predicate SignedUpExactly(db: Db, left: Db, kind: SignupKind, name: string, email: string, hash: string, now: Time) {
    var u, p := db.nextId, db.nextId + 1;
    && left.users == db.users[u := User(name := name, email := email, password := hash,
                                        roles := if kind.SeekerSignup? then [JobSeeker] else [Recruiter],
                                        isActive := true, createdAt := now, updatedAt := now)]
    && left.seekers == (if kind.SeekerSignup? then
                          db.seekers[p := SeekerProfile(userId := u, bio := None, skills := [], resumeUrl := None)]
                        else db.seekers)
    && left.recruiters == (if kind.SeekerSignup? then db.recruiters
                           else db.recruiters[p := RecruiterProfile(userId := u, company := kind.company)])
    && left.jobs == db.jobs && left.applications == db.applications && left.saved == db.saved
    && left.nextId == db.nextId + 2
  }

  lemma SignupAlone(db: Db, kind: SignupKind, name: string, email: string, password: string, hash: Option<string>, now: Time)
    returns (left: Db)
    requires Below(db.users, db.nextId) && ProfilesLinked(db.users, db.seekers, db.recruiters)
    ensures var q := Signup(kind, name, email, password, hash);
      if BadInput(email, password) then Alone(q, db, now, Failure(App(CredentialsRequired)), db)
      else if exists u :: u in db.users && db.users[u].email == email then
        Alone(q, db, now, Failure(App(UserExists)), db)
      else if hash.None? then Alone(q, db, now, Failure(App(HashFailed)), db)
      else
        && Alone(q, db, now, Success(Tokens(db.nextId, if kind.SeekerSignup? then [JobSeeker] else [Recruiter])), left)
        && SignedUpExactly(db, left, kind, name, email, hash.value, now)
  {
    var q := Signup(kind, name, email, password, hash);
    left := db;
    Starts(q, db, now);
    Continues(q, db, now, 0, Start, db);
    if !BadInput(email, password) && !EmailTaken(db, email) {
      Continues(q, db, now, 1, EmailFree, db);
      if hash.Some? {
        SignupWrites(db, kind, name, email, hash.value, now);
        left := SignedUp(db, kind, SignupRow(kind, name, email, hash.value, now));
        Continues(q, db, now, 2, Authenticated(db.nextId, InitialRoles(kind)), left);
      }
    }
  }

  /** The upgraded user and the new recruiter profile: every column, and nothing else new. */
  predicate UpgradedExactly(db: Db, left: Db, u: Id, company: Company, now: Time)
    requires u in db.users
  {
    && left.users == db.users[u := db.users[u].(roles := db.users[u].roles + [Recruiter], updatedAt := now)]
    && left.recruiters == db.recruiters[db.nextId := RecruiterProfile(userId := u, company := company)]
    && left == db.(users := left.users, recruiters := left.recruiters, nextId := db.nextId + 1)
  }

  lemma UpgradeAlone(db: Db, u: Id, company: Company, now: Time) returns (left: Db)
    ensures var q := Upgrade(u, company);
      if u !in db.users then Alone(q, db, now, Failure(App(UserNotFound)), db)
      else if JobSeeker !in db.users[u].roles then Alone(q, db, now, Failure(App(OnlySeekersUpgrade)), db)
      else if Recruiter in db.users[u].roles then Alone(q, db, now, Failure(App(AlreadyRecruiter)), db)
      else if exists p :: IsRecruiter(db, u, p) then Alone(q, db, now, Failure(Pg(UniqueViolation)), db)
      else
        && Alone(q, db, now, Success(Tokens(u, db.users[u].roles + [Recruiter])), left)
        && UpgradedExactly(db, left, u, company, now)
  {
    var q := Upgrade(u, company);
    left := db;
    Starts(q, db, now);
    Continues(q, db, now, 0, Start, db);
    if u in db.users && JobSeeker in db.users[u].roles && Recruiter !in db.users[u].roles {
      var roles := db.users[u].roles;
      Continues(q, db, now, 1, RolesRead(roles), db);
      UpgradeWrites(db, u, roles + [Recruiter], company, now);
      if p :| IsRecruiter(db, u, p) {
        assert HasRecruiter(db, u);
      } else {
        assert !HasRecruiter(db, u) by {
          assert forall p :: p in db.recruiters && db.recruiters[p].userId == u ==> IsRecruiter(db, u, p);
        }
        left := Upgraded(db, u, roles + [Recruiter], company, now);
        Continues(q, db, now, 2, Authenticated(u, roles + [Recruiter]), left);
      }
    }
  }

  /** A user without the profile a request needs gets its 404, and nothing is written. */
  lemma NoProfileAlone(q: Request, db: Db, now: Time)
    requires q.CreateJob? || q.UpdateJob? || q.RemoveJob? || q.Review? || q.Withdraw? || q.Unsave? || q.Apply? || q.Save?
    ensures q.CreateJob? || q.UpdateJob? || q.RemoveJob? || q.Review? ==>
      (forall p :: !IsRecruiter(db, q.userId, p)) ==> Alone(q, db, now, Failure(App(NoRecruiterProfile)), db)
    ensures q.Withdraw? || q.Unsave? || q.Apply? || q.Save? ==>
      (forall p :: !IsSeeker(db, q.userId, p)) ==> Alone(q, db, now, Failure(App(NoSeekerProfile)), db)
  {
    Starts(q, db, now);
    Continues(q, db, now, 0, Start, db);
    if HasRecruiter(db, q.userId) {
      var p :| p in db.recruiters && db.recruiters[p].userId == q.userId;
      assert IsRecruiter(db, q.userId, p);
    }
    if HasSeeker(db, q.userId) {
      var p :| p in db.seekers && db.seekers[p].userId == q.userId;
      assert IsSeeker(db, q.userId, p);
    }
  }

  // ---- internal/services/job.go ----

  /** A new job has the form's six columns, is active and the caller's; the answer shows it under the caller's company. */
  lemma CreateJobAlone(db: Db, u: Id, r: Id, form: JobForm, now: Time)
    requires ProfilesUnique(db.seekers, db.recruiters) && IsRecruiter(db, u, r)
    ensures
      var job := Job(recruiterId := r, title := form.title, description := form.description,
                     requirements := form.requirements, location := form.location,
                     salaryRange := Some(form.salaryRange), category := Some(form.category),
                     isActive := true, createdAt := now, updatedAt := now);
      var view := JobView(id := db.nextId, job := job, companyName := db.recruiters[r].company.name);
      Alone(CreateJob(u, form), db, now, Success(FetchedJob(view)),
            db.(jobs := db.jobs[db.nextId := job], nextId := db.nextId + 1))
  {
    var q := CreateJob(u, form);
    FoundRecruiter(db, u, r);
    Starts(q, db, now);
    Continues(q, db, now, 0, Start, db);
    Continues(q, db, now, 1, Resolved(r), db);
    Continues(q, db, now, 2, Written(db.nextId), InsertJob(db, r, form, now).0);
  }

  /** The row an update leaves: each present field as requested, each absent one as it was. */
  function UpdatedRow(job: Job, p: JobPatch, now: Time): Job {
    if p == NO_CHANGE then job else
    Job(recruiterId := job.recruiterId,
        title := if p.title.Some? then p.title.value else job.title,
        description := if p.description.Some? then p.description.value else job.description,
        requirements := if p.requirements.Some? then p.requirements.value else job.requirements,
        location := if p.location.Some? then p.location.value else job.location,
        salaryRange := if p.salaryRange.Some? then p.salaryRange else job.salaryRange,
        category := if p.category.Some? then p.category else job.category,
        isActive := job.isActive, createdAt := job.createdAt, updatedAt := now)
  }

  /** The answer to an update is the updated row under the owner's company; a job that is not the caller's is refused. */
  lemma UpdateJobAlone(db: Db, u: Id, r: Id, j: Id, patch: JobPatch, now: Time)
    requires ProfilesUnique(db.seekers, db.recruiters) && IsRecruiter(db, u, r)
    ensures var q := UpdateJob(u, j, patch);
      if j !in db.jobs then Alone(q, db, now, Failure(App(JobNotFound)), db)
      else if db.jobs[j].recruiterId != r then Alone(q, db, now, Failure(App(NotJobOwner)), db)
      else
        var row := UpdatedRow(db.jobs[j], patch, now);
        Alone(q, db, now,
              if row.salaryRange.Some? && row.category.Some? then
                Success(FetchedJob(JobView(id := j, job := row, companyName := db.recruiters[r].company.name)))
              else Failure(App(JobNotFound)),
              db.(jobs := db.jobs[j := row]))
  {
    var q := UpdateJob(u, j, patch);
    FoundRecruiter(db, u, r);
    Starts(q, db, now);
    Continues(q, db, now, 0, Start, db);
    Continues(q, db, now, 1, Resolved(r), db);
    if j in db.jobs && db.jobs[j].recruiterId == r {
      Continues(q, db, now, 2, Checked(r), db);
      if patch == NO_CHANGE {
        assert db.jobs[j := db.jobs[j]] == db.jobs;
      } else {
        assert PatchedJob(db.jobs[j], patch, now) == UpdatedRow(db.jobs[j], patch, now);
        Continues(q, db, now, 3, Written(j), PatchJob(db, j, patch, now));
      }
    }
  }

  lemma RemoveJobAlone(db: Db, u: Id, r: Id, j: Id, now: Time)
    requires ProfilesUnique(db.seekers, db.recruiters) && IsRecruiter(db, u, r)
    ensures var q := RemoveJob(u, j);
      if j !in db.jobs then Alone(q, db, now, Failure(App(JobNotFound)), db)
      else if db.jobs[j].recruiterId != r then Alone(q, db, now, Failure(App(NotJobOwner)), db)
      else Alone(q, db, now, Success(Done),
                 db.(jobs := db.jobs - {j},
                     applications := map a | a in db.applications && db.applications[a].jobId != j :: db.applications[a],
                     saved := map x | x in db.saved && db.saved[x].jobId != j :: db.saved[x]))
  {
    var q := RemoveJob(u, j);
    FoundRecruiter(db, u, r);
    Starts(q, db, now);
    Continues(q, db, now, 0, Start, db);
    Continues(q, db, now, 1, Resolved(r), db);
    if j in db.jobs && db.jobs[j].recruiterId == r {
      Continues(q, db, now, 2, Checked(r), db);
      RemovedAgree(db, j);
    }
  }

  lemma RemovedAgree(db: Db, j: Id)
    ensures DeleteJob(db, j) ==
            db.(jobs := db.jobs - {j},
                applications := map a | a in db.applications && db.applications[a].jobId != j :: db.applications[a],
                saved := map x | x in db.saved && db.saved[x].jobId != j :: db.saved[x])
  {
  }

  // ---- internal/services/recruiter.go ----

  /** A review leaves the requested status on that row; the answer shows the row with its applicant. */
  lemma ReviewAlone(db: Db, u: Id, r: Id, a: Id, status: Status, now: Time)
    requires ProfilesUnique(db.seekers, db.recruiters) && IsRecruiter(db, u, r)
    requires ApplicationsLinked(db.applications, db.jobs, db.seekers)
    requires ProfilesLinked(db.users, db.seekers, db.recruiters)
    ensures var q := Review(u, a, status);
      if a !in db.applications then Alone(q, db, now, Failure(App(ApplicationNotFound)), db)
      else if db.jobs[db.applications[a].jobId].recruiterId != r then
        Alone(q, db, now, Failure(App(NotApplicationOwner)), db)
      else
        var was := db.applications[a];
        var row := Application(jobId := was.jobId, seekerId := was.seekerId, coverLetter := was.coverLetter,
                               status := status, createdAt := was.createdAt, updatedAt := now);
        var profile := db.seekers[was.seekerId];
        var user := db.users[profile.userId];
        var view := ApplicantView(id := a, row := row, name := user.name, email := user.email,
                                  resumeUrl := if profile.resumeUrl.Some? then profile.resumeUrl.value else "",
                                  bio := if profile.bio.Some? then profile.bio.value else "", skills := profile.skills);
        Alone(q, db, now, Success(FetchedApplicant(view)), db.(applications := db.applications[a := row]))
  {
    var q := Review(u, a, status);
    FoundRecruiter(db, u, r);
    Starts(q, db, now);
    Continues(q, db, now, 0, Start, db);
    Continues(q, db, now, 1, Resolved(r), db);
    if a in db.applications && db.jobs[db.applications[a].jobId].recruiterId == r {
      Continues(q, db, now, 2, Checked(r), db);
      Continues(q, db, now, 3, Written(a), SetStatus(db, a, status, now));
    }
  }

  // ---- internal/services/jobseeker.go ----

  lemma WithdrawAlone(db: Db, u: Id, p: Id, a: Id, now: Time)
    requires ProfilesUnique(db.seekers, db.recruiters) && IsSeeker(db, u, p)
    ensures var q := Withdraw(u, a);
      if a !in db.applications then Alone(q, db, now, Failure(App(ApplicationNotFound)), db)
      else if db.applications[a].seekerId != p then Alone(q, db, now, Failure(App(NotApplicationOwner)), db)
      else Alone(q, db, now, Success(Done), db.(applications := db.applications - {a}))
  {
    var q := Withdraw(u, a);
    FoundSeeker(db, u, p);
    Starts(q, db, now);
    Continues(q, db, now, 0, Start, db);
    Continues(q, db, now, 1, Resolved(p), db);
    if a in db.applications && db.applications[a].seekerId == p {
      Continues(q, db, now, 2, Checked(p), db);
    }
  }

  /** The saved rows other than those of a pair. */
  function NotSaved(db: Db, j: Id, p: Id): map<Id, SavedJob> {
    map x | x in db.saved && !(db.saved[x].jobId == j && db.saved[x].seekerId == p) :: db.saved[x]
  }

  lemma UnsaveAlone(db: Db, u: Id, p: Id, j: Id, now: Time)
    requires ProfilesUnique(db.seekers, db.recruiters) && IsSeeker(db, u, p)
    ensures Alone(Unsave(u, j), db, now,
                  if exists x :: x in db.saved && db.saved[x].jobId == j && db.saved[x].seekerId == p then Success(Done)
                  else Failure(App(SavedJobNotFound)),
                  db.(saved := NotSaved(db, j, p)))
  {
    var q := Unsave(u, j);
    FoundSeeker(db, u, p);
    Starts(q, db, now);
    Continues(q, db, now, 0, Start, db);
    Continues(q, db, now, 1, Resolved(p), db);
    assert DeleteSaved(db, j, p).saved == NotSaved(db, j, p);
    assert SavedOf(db, j, p) == {} <==>
           !exists x :: x in db.saved && db.saved[x].jobId == j && db.saved[x].seekerId == p by {
      if x :| x in SavedOf(db, j, p) {
        assert x in db.saved && db.saved[x].jobId == j && db.saved[x].seekerId == p;
      }
      if x :| x in db.saved && db.saved[x].jobId == j && db.saved[x].seekerId == p {
        assert x in SavedOf(db, j, p);
      }
    }
  }

  /** An application of a pair without one is stored with the letter and status 'submitted'. */
  lemma ApplyAlone(db: Db, u: Id, p: Id, j: Id, letter: string, now: Time)
    requires ProfilesUnique(db.seekers, db.recruiters) && IsSeeker(db, u, p)
    ensures var q := Apply(u, j, letter);
      if j !in db.jobs then Alone(q, db, now, Failure(App(JobNotFound)), db)
      else if !db.jobs[j].isActive then Alone(q, db, now, Failure(App(JobInactive)), db)
      else if exists a :: a in db.applications && db.applications[a].jobId == j && db.applications[a].seekerId == p then
        Alone(q, db, now, Failure(App(AlreadyApplied)), db)
      else
        var row := Application(jobId := j, seekerId := p, coverLetter := letter, status := Submitted,
                               createdAt := now, updatedAt := now);
        Alone(q, db, now, Success(Row(db.nextId)),
              db.(applications := db.applications[db.nextId := row], nextId := db.nextId + 1))
  {
    var q := Apply(u, j, letter);
    FoundSeeker(db, u, p);
    Starts(q, db, now);
    Continues(q, db, now, 0, Start, db);
    Continues(q, db, now, 1, Resolved(p), db);
    if j in db.jobs && db.jobs[j].isActive {
      Continues(q, db, now, 2, Checked(p), db);
      if a :| a in db.applications && db.applications[a].jobId == j && db.applications[a].seekerId == p {
        assert a in ApplicationsOf(db, j, p);
      } else {
        assert forall a :: a !in ApplicationsOf(db, j, p);
        Continues(q, db, now, 3, NoDuplicate(p), db);
      }
    }
  }

  /** The upsert fails exactly when the pair is not held and its job or its profile is missing. */
  lemma UpsertIs(db: Db, j: Id, p: Id, now: Time)
    requires PairsUnique(db.saved)
    ensures forall x :: x in SavedOf(db, j, p) ==> UpsertSaved(db, j, p, now) == (db, Success(x))
    ensures SavedOf(db, j, p) == {} ==>
      UpsertSaved(db, j, p, now) ==
      if j in db.jobs && p in db.seekers then
        (db.(saved := db.saved[db.nextId := SavedJob(jobId := j, seekerId := p, savedAt := now)], nextId := db.nextId + 1),
         Success(db.nextId))
      else (db, Failure(Pg(ForeignKeyViolation)))
    ensures UpsertSaved(db, j, p, now).1.Failure? <==>
      (forall x :: x in db.saved ==> !(db.saved[x].jobId == j && db.saved[x].seekerId == p))
      && (j !in db.jobs || p !in db.seekers)
  {
    forall x | x in SavedOf(db, j, p) ensures UpsertSaved(db, j, p, now) == (db, Success(x)) {
      assert forall y :: y in SavedOf(db, j, p) ==> y == x;
    }
    assert (forall x :: x in db.saved ==> !(db.saved[x].jobId == j && db.saved[x].seekerId == p)) <==>
           SavedOf(db, j, p) == {} by {
      assert forall x :: x in SavedOf(db, j, p) <==>
                         x in db.saved && db.saved[x].jobId == j && db.saved[x].seekerId == p;
    }
  }

  /** Saving a job answers with the pair's row, the one it has or a new one saved now. */
  lemma SaveAlone(db: Db, u: Id, p: Id, j: Id, now: Time)
    requires ProfilesUnique(db.seekers, db.recruiters) && IsSeeker(db, u, p) && PairsUnique(db.saved)
    ensures var q := Save(u, j);
      if j !in db.jobs then Alone(q, db, now, Failure(App(JobNotFound)), db)
      else
        && (forall x :: x in db.saved && db.saved[x].jobId == j && db.saved[x].seekerId == p ==>
              Alone(q, db, now, Success(Row(x)), db))
        && ((forall x :: x in db.saved ==> !(db.saved[x].jobId == j && db.saved[x].seekerId == p)) ==>
              Alone(q, db, now, Success(Row(db.nextId)),
                    db.(saved := db.saved[db.nextId := SavedJob(jobId := j, seekerId := p, savedAt := now)],
                        nextId := db.nextId + 1)))
  {
    var q := Save(u, j);
    FoundSeeker(db, u, p);
    Starts(q, db, now);
    Continues(q, db, now, 0, Start, db);
    Continues(q, db, now, 1, Resolved(p), db);
    if j in db.jobs {
      Continues(q, db, now, 2, Checked(p), db);
      UpsertIs(db, j, p, now);
      assert forall x :: x in SavedOf(db, j, p) <==>
                         x in db.saved && db.saved[x].jobId == j && db.saved[x].seekerId == p;
      if SavedOf(db, j, p) == {} {
        assert UpsertSaved(db, j, p, now).1 == Success(db.nextId);
      }
    }
  }
}
