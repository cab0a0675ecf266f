/**
 What the constraints of internal/db/migrations/001_initial.sql and the services together keep true of
 the tables, and how the tables can change under a request that is between two of its statements.
 Every statement and transaction of Schema is proved to keep both.
 */
module Integrity {
  import opened Wrappers
  import opened Errors
  import opened Schema

  // ---- What the constraints and the services keep true of the tables ----

  ghost predicate Below<V>(table: map<Id, V>, next: Id) {
    forall k :: k in table ==> k < next
  }

  ghost predicate JobsOwned(jobs: map<Id, Job>, recruiters: map<Id, RecruiterProfile>) {
    forall j :: j in jobs ==> jobs[j].recruiterId in recruiters
  }

  ghost predicate ApplicationsLinked(applications: map<Id, Application>, jobs: map<Id, Job>, seekers: map<Id, SeekerProfile>) {
    forall a :: a in applications ==> applications[a].jobId in jobs && applications[a].seekerId in seekers
  }

  ghost predicate SavedLinked(saved: map<Id, SavedJob>, jobs: map<Id, Job>, seekers: map<Id, SeekerProfile>) {
    forall r :: r in saved ==> saved[r].jobId in jobs && saved[r].seekerId in seekers
  }

  ghost predicate ProfilesLinked(users: map<Id, User>, seekers: map<Id, SeekerProfile>,
                                 recruiters: map<Id, RecruiterProfile>)
  {
    && (forall p :: p in seekers ==> seekers[p].userId in users)
    && (forall p :: p in recruiters ==> recruiters[p].userId in users)
  }

  ghost predicate EmailsUnique(users: map<Id, User>) {
    forall u, v :: u in users && v in users && users[u].email == users[v].email ==> u == v
  }

  ghost predicate ProfilesUnique(seekers: map<Id, SeekerProfile>, recruiters: map<Id, RecruiterProfile>) {
    && (forall p, q :: p in seekers && q in seekers && seekers[p].userId == seekers[q].userId ==> p == q)
    && (forall p, q :: p in recruiters && q in recruiters && recruiters[p].userId == recruiters[q].userId ==> p == q)
  }

  ghost predicate PairsUnique(saved: map<Id, SavedJob>) {
    forall r, t | r in saved && t in saved && saved[r].jobId == saved[t].jobId && saved[r].seekerId == saved[t].seekerId
      :: r == t
  }

  /** The role list a user's profiles call for. */
  function RoleList(seeker: bool, recruiter: bool): seq<Role> {
    (if seeker then [JobSeeker] else []) + (if recruiter then [Recruiter] else [])
  }

  /** Not a schema rule: only the services' transactions keep it. */
  ghost predicate RolesMatch(users: map<Id, User>, seekers: map<Id, SeekerProfile>, recruiters: map<Id, RecruiterProfile>) {
    forall u :: u in users ==>
      && users[u].roles == RoleList(SeekerFor(seekers, u), RecruiterFor(recruiters, u))
      && (SeekerFor(seekers, u) || RecruiterFor(recruiters, u))
  }

  /** Not schema rules: no user or job is ever deactivated, and no job holds a NULL. */
  ghost predicate UsersActive(users: map<Id, User>) {
    forall u :: u in users ==> users[u].isActive
  }

  ghost predicate JobsComplete(jobs: map<Id, Job>) {
    forall j :: j in jobs ==> jobs[j].isActive && Scannable(jobs[j])
  }

  /** Users and profiles. */
  ghost predicate AccountsSound(db: Db) {
    && Below(db.users, db.nextId) && Below(db.seekers, db.nextId) && Below(db.recruiters, db.nextId)
    && ProfilesLinked(db.users, db.seekers, db.recruiters)
    && EmailsUnique(db.users) && ProfilesUnique(db.seekers, db.recruiters)
    && RolesMatch(db.users, db.seekers, db.recruiters) && UsersActive(db.users)
  }

  /** Jobs, applications and saved jobs. */
  ghost predicate ContentSound(db: Db) {
    && Below(db.jobs, db.nextId) && Below(db.applications, db.nextId) && Below(db.saved, db.nextId)
    && JobsOwned(db.jobs, db.recruiters)
    && ApplicationsLinked(db.applications, db.jobs, db.seekers)
    && SavedLinked(db.saved, db.jobs, db.seekers)
    && PairsUnique(db.saved)
    && JobsComplete(db.jobs)
  }

  ghost predicate Sound(db: Db) {
    AccountsSound(db) && ContentSound(db)
  }

  // ---- How the tables may change while a request is between two statements ----

  ghost predicate UserKept(u: User, v: User) {
    v.name == u.name && v.email == u.email && v.password == u.password
    && u.roles <= v.roles && v.isActive == u.isActive && v.createdAt == u.createdAt
  }

  ghost predicate JobKept(j: Job, k: Job) {
    k.recruiterId == j.recruiterId && k.isActive == j.isActive && k.createdAt == j.createdAt
  }

  ghost predicate ApplicationKept(a: Application, b: Application) {
    b.jobId == a.jobId && b.seekerId == a.seekerId && b.coverLetter == a.coverLetter && b.createdAt == a.createdAt
  }

  ghost predicate UsersKept(a: map<Id, User>, b: map<Id, User>, next: Id) {
    && (forall u :: u in a ==> u in b && UserKept(a[u], b[u]))
    && (forall u :: u in b && u !in a ==> next <= u)
  }

  ghost predicate ProfilesKept<V>(a: map<Id, V>, b: map<Id, V>) {
    forall p :: p in a ==> p in b && b[p] == a[p]
  }

  ghost predicate JobsKept(a: map<Id, Job>, b: map<Id, Job>, next: Id) {
    forall j :: j in b ==> if j in a then JobKept(a[j], b[j]) else next <= j
  }

  ghost predicate ApplicationsKept(a: map<Id, Application>, b: map<Id, Application>, next: Id) {
    forall x :: x in b ==> if x in a then ApplicationKept(a[x], b[x]) else next <= x
  }

  ghost predicate SavedKept(a: map<Id, SavedJob>, b: map<Id, SavedJob>, next: Id) {
    forall r :: r in b ==> if r in a then b[r] == a[r] else next <= r
  }

  ghost predicate AccountsEvolve(a: Db, b: Db) {
    && a.nextId <= b.nextId
    && UsersKept(a.users, b.users, a.nextId)
    && ProfilesKept(a.seekers, b.seekers)
    && ProfilesKept(a.recruiters, b.recruiters)
  }

  ghost predicate ContentEvolves(a: Db, b: Db) {
    && a.nextId <= b.nextId
    && JobsKept(a.jobs, b.jobs, a.nextId)
    && ApplicationsKept(a.applications, b.applications, a.nextId)
    && SavedKept(a.saved, b.saved, a.nextId)
  }

  /**
   What any number of steps of any requests does to the tables at most: accounts and profiles stay, role lists
   only grow at their end, a row that survives keeps its owner columns, and a row that appears has a new id.
   */
  ghost predicate Evolves(a: Db, b: Db) {
    AccountsEvolve(a, b) && ContentEvolves(a, b)
  }

  lemma EmptySound()
    ensures Sound(EMPTY)
  {
  }

  lemma EvolvesReflexive(db: Db)
    ensures Evolves(db, db)
  {
  }

  lemma EvolvesTransitive(a: Db, b: Db, c: Db)
    requires Sound(a) && Evolves(a, b) && Evolves(b, c)
    ensures Evolves(a, c)
  {
    ContentEvolvesTransitive(a, b, c);
  }

  lemma ContentEvolvesTransitive(a: Db, b: Db, c: Db)
    requires Below(a.jobs, a.nextId) && Below(a.applications, a.nextId) && Below(a.saved, a.nextId)
    requires ContentEvolves(a, b) && ContentEvolves(b, c)
    ensures ContentEvolves(a, c)
  {
  }

  // ---- Each write keeps the tables sound and lets them only evolve ----

  /** A write to jobs, applications or saved_jobs that keeps what must be kept of them. */
  ghost predicate ContentWritten(db: Db, after: Db) {
    && after.users == db.users && after.seekers == db.seekers && after.recruiters == db.recruiters
    && ContentSound(after) && ContentEvolves(db, after)
  }

  lemma NothingWritten(db: Db)
    requires ContentSound(db)
    ensures ContentWritten(db, db)
  {
  }

  lemma ContentWrite(db: Db, after: Db)
    requires AccountsSound(db) && ContentWritten(db, after)
    ensures Sound(after) && Evolves(db, after)
  {
  }

  lemma AccountWrite(db: Db, after: Db)
    requires ContentSound(db)
    requires after.jobs == db.jobs && after.applications == db.applications && after.saved == db.saved
    requires AccountsSound(after) && AccountsEvolve(db, after)
    ensures Sound(after) && Evolves(db, after)
  {
  }

  lemma SeekerAdded(seekers: map<Id, SeekerProfile>, p: Id, userId: Id, u: Id)
    requires p !in seekers
    ensures SeekerFor(seekers[p := BlankProfile(userId)], u) == (u == userId || SeekerFor(seekers, u))
  {
    var after := seekers[p := BlankProfile(userId)];
    assert after[p].userId == userId;
    if SeekerFor(seekers, u) {
      var q :| q in seekers && seekers[q].userId == u;
      assert after[q].userId == u;
    }
  }

  lemma RecruiterAdded(recruiters: map<Id, RecruiterProfile>, p: Id, row: RecruiterProfile, u: Id)
    requires p !in recruiters
    ensures RecruiterFor(recruiters[p := row], u) == (u == row.userId || RecruiterFor(recruiters, u))
  {
    var after := recruiters[p := row];
    assert after[p].userId == row.userId;
    if RecruiterFor(recruiters, u) {
      var q :| q in recruiters && recruiters[q].userId == u;
      assert after[q].userId == u;
    }
  }

  lemma SeekerRoles(users: map<Id, User>, seekers: map<Id, SeekerProfile>, recruiters: map<Id, RecruiterProfile>,
                    id: Id, row: User, p: Id)
    requires RolesMatch(users, seekers, recruiters) && ProfilesLinked(users, seekers, recruiters)
    requires id !in users && p !in seekers && row.roles == [JobSeeker]
    ensures RolesMatch(users[id := row], seekers[p := BlankProfile(id)], recruiters)
  {
    var after, profiles := users[id := row], seekers[p := BlankProfile(id)];
    forall u | u in after
      ensures after[u].roles == RoleList(SeekerFor(profiles, u), RecruiterFor(recruiters, u))
      ensures SeekerFor(profiles, u) || RecruiterFor(recruiters, u)
    {
      SeekerAdded(seekers, p, id, u);
    }
  }

  lemma RecruiterRoles(users: map<Id, User>, seekers: map<Id, SeekerProfile>, recruiters: map<Id, RecruiterProfile>,
                       id: Id, row: User, p: Id, profile: RecruiterProfile)
    requires RolesMatch(users, seekers, recruiters) && ProfilesLinked(users, seekers, recruiters)
    requires p !in recruiters && profile.userId == id
    requires id in users ==> SeekerFor(seekers, id)
    requires row.roles == if id in users then [JobSeeker, Recruiter] else [Recruiter]
    ensures RolesMatch(users[id := row], seekers, recruiters[p := profile])
  {
    var after, profiles := users[id := row], recruiters[p := profile];
    forall u | u in after
      ensures after[u].roles == RoleList(SeekerFor(seekers, u), RecruiterFor(profiles, u))
      ensures SeekerFor(seekers, u) || RecruiterFor(profiles, u)
    {
      RecruiterAdded(recruiters, p, profile, u);
    }
  }

  ghost predicate UserWrite(db: Db, id: Id, row: User) {
    && row.isActive && id <= db.nextId
    && (if id in db.users then UserKept(db.users[id], row) else id == db.nextId && !EmailTaken(db, row.email))
  }

  lemma UserWritten(db: Db, id: Id, row: User, next: Id)
    requires Below(db.users, db.nextId) && EmailsUnique(db.users) && UsersActive(db.users)
    requires UserWrite(db, id, row) && db.nextId <= next && id < next
    ensures var users := db.users[id := row];
      Below(users, next) && EmailsUnique(users) && UsersActive(users) && UsersKept(db.users, users, db.nextId)
  {
  }

  lemma SeekerWritten(db: Db, id: Id, row: User, p: Id, next: Id)
    requires AccountsSound(db) && UserWrite(db, id, row) && !HasSeeker(db, id) && db.nextId <= p < next && id <= p
    requires RolesMatch(db.users[id := row], db.seekers[p := BlankProfile(id)], db.recruiters)
    ensures var after := db.(users := db.users[id := row], seekers := db.seekers[p := BlankProfile(id)], nextId := next);
      AccountsSound(after) && AccountsEvolve(db, after)
  {
    UserWritten(db, id, row, next);
    SeekerKeys(db, id, row, p, next);
  }

  lemma SeekerKeys(db: Db, id: Id, row: User, p: Id, next: Id)
    requires ProfilesLinked(db.users, db.seekers, db.recruiters) && ProfilesUnique(db.seekers, db.recruiters)
    requires Below(db.seekers, db.nextId) && Below(db.recruiters, db.nextId) && db.nextId <= p < next && !HasSeeker(db, id)
    ensures var seekers := db.seekers[p := BlankProfile(id)];
      && ProfilesLinked(db.users[id := row], seekers, db.recruiters) && ProfilesUnique(seekers, db.recruiters)
      && Below(seekers, next) && Below(db.recruiters, next) && ProfilesKept(db.seekers, seekers)
  {
  }

  lemma RecruiterWritten(db: Db, id: Id, row: User, p: Id, profile: RecruiterProfile, next: Id)
    requires AccountsSound(db) && UserWrite(db, id, row) && !HasRecruiter(db, id) && db.nextId <= p < next && id <= p
    requires profile.userId == id && RolesMatch(db.users[id := row], db.seekers, db.recruiters[p := profile])
    ensures var after := db.(users := db.users[id := row], recruiters := db.recruiters[p := profile], nextId := next);
      AccountsSound(after) && AccountsEvolve(db, after)
  {
    UserWritten(db, id, row, next);
    RecruiterKeys(db, id, row, p, profile, next);
  }

  lemma RecruiterKeys(db: Db, id: Id, row: User, p: Id, profile: RecruiterProfile, next: Id)
    requires ProfilesLinked(db.users, db.seekers, db.recruiters) && ProfilesUnique(db.seekers, db.recruiters)
    requires Below(db.seekers, db.nextId) && Below(db.recruiters, db.nextId) && db.nextId <= p < next
    requires profile.userId == id && !HasRecruiter(db, id)
    ensures var recruiters := db.recruiters[p := profile];
      && ProfilesLinked(db.users[id := row], db.seekers, recruiters) && ProfilesUnique(db.seekers, recruiters)
      && Below(db.seekers, next) && Below(recruiters, next) && ProfilesKept(db.recruiters, recruiters)
  {
  }

  /** The users row a signup inserts, and the tables after it. */
  function SignupRow(kind: SignupKind, name: string, email: string, hash: string, now: Time): User {
    User(name, email, hash, InitialRoles(kind), true, now, now)
  }

  function SignedUp(db: Db, kind: SignupKind, row: User): Db {
    var id := db.nextId;
    match kind
    case SeekerSignup =>
      db.(users := db.users[id := row], seekers := db.seekers[id + 1 := BlankProfile(id)], nextId := id + 2)
    case RecruiterSignup(company) =>
      db.(users := db.users[id := row], recruiters := db.recruiters[id + 1 := RecruiterProfile(id, company)],
          nextId := id + 2)
  }

  lemma SignupWrites(db: Db, kind: SignupKind, name: string, email: string, hash: string, now: Time)
    requires ProfilesLinked(db.users, db.seekers, db.recruiters) && Below(db.users, db.nextId) && !EmailTaken(db, email)
    ensures SignupTx(db, kind, name, email, hash, now) ==
            (SignedUp(db, kind, SignupRow(kind, name, email, hash, now)), Success(db.nextId))
  {
    assert !HasSeeker(db, db.nextId) && !HasRecruiter(db, db.nextId);
  }

  lemma SignupAccounts(db: Db, kind: SignupKind, row: User)
    requires AccountsSound(db) && !EmailTaken(db, row.email) && row.roles == InitialRoles(kind) && row.isActive
    ensures AccountsSound(SignedUp(db, kind, row)) && AccountsEvolve(db, SignedUp(db, kind, row))
  {
    var id := db.nextId;
    assert !HasSeeker(db, id) && !HasRecruiter(db, id);
    match kind {
      case SeekerSignup =>
        SeekerRoles(db.users, db.seekers, db.recruiters, id, row, id + 1);
        SeekerWritten(db, id, row, id + 1, id + 2);
      case RecruiterSignup(company) =>
        var profile := RecruiterProfile(id, company);
        RecruiterRoles(db.users, db.seekers, db.recruiters, id, row, id + 1, profile);
        RecruiterWritten(db, id, row, id + 1, profile, id + 2);
    }
  }

  /** A signup commits exactly when no user holds the email; otherwise it is a unique violation and no write. */
  lemma SignupSound(db: Db, kind: SignupKind, name: string, email: string, hash: string, now: Time)
    requires Sound(db)
    ensures var (after, r) := SignupTx(db, kind, name, email, hash, now);
      && Sound(after) && Evolves(db, after)
      && (EmailTaken(db, email) ==> after == db && r == Failure(Pg(UniqueViolation)))
      && (!EmailTaken(db, email) ==>
            r == Success(db.nextId) && r.value in after.users && after.users[r.value].roles == InitialRoles(kind))
  {
    if !EmailTaken(db, email) {
      SignupWrites(db, kind, name, email, hash, now);
      SignupAccounts(db, kind, SignupRow(kind, name, email, hash, now));
      AccountWrite(db, SignedUp(db, kind, SignupRow(kind, name, email, hash, now)));
    }
  }

  function Upgraded(db: Db, userId: Id, roles: seq<Role>, company: Company, now: Time): Db
    requires userId in db.users
  {
    db.(users := db.users[userId := db.users[userId].(roles := roles, updatedAt := now)],
        recruiters := db.recruiters[db.nextId := RecruiterProfile(userId, company)], nextId := db.nextId + 1)
  }

  lemma UpgradeWrites(db: Db, userId: Id, roles: seq<Role>, company: Company, now: Time)
    requires userId in db.users
    ensures UpgradeTx(db, userId, roles, company, now) ==
            if HasRecruiter(db, userId) then (db, Failure(Pg(UniqueViolation)))
            else (Upgraded(db, userId, roles, company, now), Success(userId))
  {
  }

  lemma UpgradeAccounts(db: Db, userId: Id, company: Company, now: Time)
    requires AccountsSound(db) && userId in db.users && HasSeeker(db, userId) && !HasRecruiter(db, userId)
    ensures var after := Upgraded(db, userId, [JobSeeker, Recruiter], company, now);
      AccountsSound(after) && AccountsEvolve(db, after)
  {
    var row := db.users[userId].(roles := [JobSeeker, Recruiter], updatedAt := now);
    var p, profile := db.nextId, RecruiterProfile(userId, company);
    RecruiterRoles(db.users, db.seekers, db.recruiters, userId, row, p, profile);
    assert db.users[userId].roles == [JobSeeker];
    RecruiterWritten(db, userId, row, p, profile, p + 1);
  }

  /** Of two upgrades that both read the old role list, the second to commit violates UNIQUE(user_id) and writes nothing. */
  lemma UpgradeSound(db: Db, userId: Id, company: Company, now: Time)
    requires Sound(db) && userId in db.users && HasSeeker(db, userId)
    ensures var (after, r) := UpgradeTx(db, userId, [JobSeeker, Recruiter], company, now);
      && Sound(after) && Evolves(db, after)
      && (HasRecruiter(db, userId) ==> after == db && r == Failure(Pg(UniqueViolation)))
      && (!HasRecruiter(db, userId) ==>
            r == Success(userId) && userId in after.users && after.users[userId].roles == [JobSeeker, Recruiter])
  {
    UpgradeWrites(db, userId, [JobSeeker, Recruiter], company, now);
    if !HasRecruiter(db, userId) {
      UpgradeAccounts(db, userId, company, now);
      AccountWrite(db, Upgraded(db, userId, [JobSeeker, Recruiter], company, now));
    }
  }

  lemma InsertJobSound(db: Db, recruiterId: Id, f: JobForm, now: Time)
    requires ContentSound(db)
    ensures ContentWritten(db, InsertJob(db, recruiterId, f, now).0)
    ensures var (after, r) := InsertJob(db, recruiterId, f, now);
      if recruiterId in db.recruiters then
        r == Success(db.nextId) && after.jobs ==
          db.jobs[db.nextId := Job(recruiterId := recruiterId, title := f.title, description := f.description,
                                   requirements := f.requirements, location := f.location,
                                   salaryRange := Some(f.salaryRange), category := Some(f.category),
                                   isActive := true, createdAt := now, updatedAt := now)]
      else r == Failure(Pg(ForeignKeyViolation)) && after == db
  {
  }

  lemma JobReplaced(db: Db, jobId: Id, row: Job)
    requires ContentSound(db) && jobId in db.jobs && JobKept(db.jobs[jobId], row) && Scannable(row)
    ensures ContentWritten(db, db.(jobs := db.jobs[jobId := row]))
  {
  }

  lemma PatchJobSound(db: Db, jobId: Id, p: JobPatch, now: Time)
    requires ContentSound(db)
    ensures ContentWritten(db, PatchJob(db, jobId, p, now))
  {
    if jobId in db.jobs {
      JobReplaced(db, jobId, PatchedJob(db.jobs[jobId], p, now));
    }
  }

  lemma DeleteJobSound(db: Db, jobId: Id)
    requires ContentSound(db)
    ensures ContentWritten(db, DeleteJob(db, jobId))
  {
  }

  lemma InsertApplicationSound(db: Db, jobId: Id, seekerId: Id, coverLetter: string, now: Time)
    requires ContentSound(db)
    ensures ContentWritten(db, InsertApplication(db, jobId, seekerId, coverLetter, now).0)
    ensures var (after, r) := InsertApplication(db, jobId, seekerId, coverLetter, now);
      if jobId in db.jobs && seekerId in db.seekers then
        r == Success(db.nextId) && after.applications ==
          db.applications[db.nextId := Application(jobId := jobId, seekerId := seekerId, coverLetter := coverLetter,
                                                   status := Submitted, createdAt := now, updatedAt := now)]
      else r == Failure(Pg(ForeignKeyViolation)) && after == db
  {
  }

  lemma ApplicationReplaced(db: Db, applicationId: Id, row: Application)
    requires ContentSound(db) && applicationId in db.applications
    requires ApplicationKept(db.applications[applicationId], row)
    ensures ContentWritten(db, db.(applications := db.applications[applicationId := row]))
  {
  }

  lemma SetStatusSound(db: Db, applicationId: Id, status: Status, now: Time)
    requires ContentSound(db)
    ensures ContentWritten(db, SetStatus(db, applicationId, status, now))
    ensures var after := SetStatus(db, applicationId, status, now);
      && after.applications.Keys == db.applications.Keys
      && (forall a :: a in db.applications && a != applicationId ==> after.applications[a] == db.applications[a])
      && (applicationId in db.applications ==>
            after.applications[applicationId] == db.applications[applicationId].(status := status, updatedAt := now))
  {
    if applicationId in db.applications {
      var row := db.applications[applicationId].(status := status, updatedAt := now);
      ApplicationReplaced(db, applicationId, row);
    }
  }

  lemma DeleteApplicationSound(db: Db, applicationId: Id)
    requires ContentSound(db)
    ensures ContentWritten(db, DeleteApplication(db, applicationId))
    ensures var after := DeleteApplication(db, applicationId).applications;
      && applicationId !in after
      && forall a :: a in db.applications && a != applicationId ==> a in after && after[a] == db.applications[a]
  {
  }

  lemma UpsertSavedSound(db: Db, jobId: Id, seekerId: Id, now: Time)
    requires ContentSound(db)
    ensures ContentWritten(db, UpsertSaved(db, jobId, seekerId, now).0)
    ensures var (after, r) := UpsertSaved(db, jobId, seekerId, now);
      && (r.Success? ==> SavedOf(after, jobId, seekerId) == {r.value})
      && (SavedOf(db, jobId, seekerId) != {} ==> r.Success? && after == db)
      && (SavedOf(db, jobId, seekerId) == {} && r.Success? ==>
            after.saved == db.saved[db.nextId := SavedJob(jobId := jobId, seekerId := seekerId, savedAt := now)])
      && (r.Failure? <==> SavedOf(db, jobId, seekerId) == {} && (jobId !in db.jobs || seekerId !in db.seekers))
      && (r.Failure? ==> r == Failure(Pg(ForeignKeyViolation)) && after == db)
  {
    if SavedOf(db, jobId, seekerId) == {} {
      assert forall r :: r in db.saved ==> r !in SavedOf(db, jobId, seekerId);
    }
  }

  lemma DeleteSavedSound(db: Db, jobId: Id, seekerId: Id)
    requires ContentSound(db)
    ensures ContentWritten(db, DeleteSaved(db, jobId, seekerId))
    ensures SavedOf(DeleteSaved(db, jobId, seekerId), jobId, seekerId) == {}
    ensures var after := DeleteSaved(db, jobId, seekerId).saved;
      forall r :: r in db.saved && !(db.saved[r].jobId == jobId && db.saved[r].seekerId == seekerId) ==>
        r in after && after[r] == db.saved[r]
  {
  }
}
