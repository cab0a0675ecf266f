/**
 What each program has established between its statements, and why no other request can undo it: the
 local assertion `Holds` survives any `Evolves`, and every statement re-establishes it, keeps the tables
 sound and lets them only evolve.
 */
module Stability {
  import opened Wrappers
  import opened Errors
  import opened Schema
  import opened Integrity
  import opened Programs

  predicate AsSeeker(q: Request) {
    q.Upgrade? || q.Withdraw? || q.Unsave? || q.Apply? || q.Save?
  }

  predicate AsRecruiter(q: Request) {
    q.CreateJob? || q.UpdateJob? || q.RemoveJob? || q.Review?
  }

  /** What the role gate in front of a request guarantees about its user. */
  ghost predicate Admitted(db: Db, q: Request) {
    && (AsSeeker(q) ==> HasSeeker(db, q.userId))
    && (AsRecruiter(q) ==> HasRecruiter(db, q.userId))
    && (q.Refresh? || q.Upgrade? ==> q.userId in db.users)
  }

  ghost predicate OwnProfile(db: Db, q: Request, p: Id) {
    if AsSeeker(q) then p in db.seekers && db.seekers[p].userId == q.userId
    else AsRecruiter(q) && p in db.recruiters && db.recruiters[p].userId == q.userId
  }

  /** The row an ownership check passed: gone for good, or still of the checked profile. */
  ghost predicate OwnTarget(db: Db, q: Request, p: Id) {
    match q
    case UpdateJob(_, j, _) => j < db.nextId && (j in db.jobs ==> db.jobs[j].recruiterId == p)
    case RemoveJob(_, j) => j < db.nextId && (j in db.jobs ==> db.jobs[j].recruiterId == p)
    case Review(_, a, _) => a < db.nextId && (a in db.applications ==> ReviewerOf(db, a) == Some(p))
    case Withdraw(_, a) => a < db.nextId && (a in db.applications ==> db.applications[a].seekerId == p)
    case Apply(_, _, _) => true
    case Save(_, _) => true
    case _ => false
  }

  /** The row a request has written: gone for good, or still of the caller. */
  ghost predicate OwnWrite(db: Db, q: Request, id: Id) {
    match q
    case CreateJob(u, _) => id < db.nextId && (id in db.jobs ==> IsRecruiter(db, u, db.jobs[id].recruiterId))
    case UpdateJob(u, j, _) => id == j < db.nextId && (id in db.jobs ==> IsRecruiter(db, u, db.jobs[id].recruiterId))
    case Review(_, a, _) => id == a
    case _ => false
  }

  /** Error branches the code has and no run reaches. */
  predicate DeadBranch(o: Outcome) {
    o.Failure? && o.error in {App(NoRecruiterProfile), App(NoSeekerProfile), App(OnlySeekersUpgrade),
                              App(UserNotFound), App(AccountDeactivated), App(JobInactive)}
  }

  /** Why a signup can fail: bad input, or the email is taken and the client sees 409 by either path. */
  ghost predicate SignupRefused(db: Db, q: Request, e: Error)
    requires q.Signup?
  {
    if q.email == "" || q.password == "" then e == App(CredentialsRequired)
    else (q.hash.None? && e == App(HashFailed)) || (Classify(e) == 409 && EmailTaken(db, q.email))
  }

  /** Whose tokens a request may be about to issue, and with which roles. */
  ghost predicate SessionFor(db: Db, q: Request, u: Id, roles: seq<Role>) {
    && u in db.users && roles != [] && roles <= db.users[u].roles
    && match q
       case Signup(kind, _, email, _, hash) =>
         db.users[u].email == email && hash == Some(db.users[u].password) && roles == InitialRoles(kind)
       case Login(email, _, opens) => db.users[u].email == email && db.users[u].password in opens
       case Refresh(userId) => u == userId
       case Upgrade(userId, _) => u == userId && roles == [JobSeeker, Recruiter]
       case _ => false
  }

  ghost predicate EndsWell(db: Db, q: Request, o: Outcome) {
    && !DeadBranch(o)
    && (o.Success? && o.value.Tokens? ==> SessionFor(db, q, o.value.userId, o.value.roles))
    && (q.Signup? && o.Failure? ==> SignupRefused(db, q, o.error))
    && (q.Upgrade? && o.Failure? ==> Classify(o.error) == 409 && HasRecruiter(db, q.userId))
  }

  ghost predicate Holds(db: Db, q: Request, pc: Pc) {
    match pc
    case Start => true
    case EmailFree => q.Signup? && q.email != "" && q.password != ""
    case RolesRead(roles) => q.Upgrade? && roles == [JobSeeker]
    case Resolved(p) => OwnProfile(db, q, p)
    case Checked(p) => OwnProfile(db, q, p) && OwnTarget(db, q, p)
    case NoDuplicate(p) => q.Apply? && OwnProfile(db, q, p)
    case Written(id) => OwnWrite(db, q, id)
    case Authenticated(u, roles) => SessionFor(db, q, u, roles)
    case Finished(o) => EndsWell(db, q, o)
  }

  lemma AdmittedStable(a: Db, b: Db, q: Request)
    requires AccountsEvolve(a, b) && Admitted(a, q)
    ensures Admitted(b, q)
  {
    if AsSeeker(q) {
      var p :| p in a.seekers && a.seekers[p].userId == q.userId;
      assert b.seekers[p].userId == q.userId;
    }
    if AsRecruiter(q) {
      var p :| p in a.recruiters && a.recruiters[p].userId == q.userId;
      assert b.recruiters[p].userId == q.userId;
    }
  }

  lemma TakenStable(a: Db, b: Db, email: string, userId: Id)
    requires AccountsEvolve(a, b)
    ensures EmailTaken(a, email) ==> EmailTaken(b, email)
    ensures HasRecruiter(a, userId) ==> HasRecruiter(b, userId)
  {
    if EmailTaken(a, email) {
      var u :| u in a.users && a.users[u].email == email;
      assert UserKept(a.users[u], b.users[u]);
    }
    if HasRecruiter(a, userId) {
      var p :| p in a.recruiters && a.recruiters[p].userId == userId;
      assert b.recruiters[p].userId == userId;
    }
  }

  predicate Session(q: Request) {
    q.Signup? || q.Login? || q.Refresh? || q.Upgrade?
  }

  lemma SessionStable(a: Db, b: Db, q: Request, pc: Pc)
    requires Session(q) && AccountsEvolve(a, b) && Holds(a, q, pc)
    ensures Holds(b, q, pc)
  {
    if q.Signup? {
      TakenStable(a, b, q.email, 0);
    } else if q.Upgrade? {
      TakenStable(a, b, "", q.userId);
    }
  }

  lemma RowsStable(a: Db, b: Db, q: Request, pc: Pc)
    requires !Session(q) && ContentSound(a) && ContentSound(b) && Evolves(a, b) && Holds(a, q, pc)
    ensures Holds(b, q, pc)
  {
  }

  /** Check-then-act is stable: nothing other requests do falsifies what a program has established. */
  lemma HoldsStable(a: Db, b: Db, q: Request, pc: Pc)
    requires ContentSound(a) && ContentSound(b) && Evolves(a, b) && Holds(a, q, pc)
    ensures Holds(b, q, pc)
  {
    if Session(q) {
      SessionStable(a, b, q, pc);
    } else {
      RowsStable(a, b, q, pc);
    }
  }

  predicate SignupCommits(q: Request, pc: Pc, taken: bool) {
    q.Signup? && pc.EmailFree? && q.hash.Some? && !taken
  }

  /** A signup statement commits both rows, or leaves the tables alone and issues nothing. */
  lemma SignupEffect(q: Request, pc: Pc, db: Db, now: Time)
    requires q.Signup? && ProfilesLinked(db.users, db.seekers, db.recruiters) && Below(db.users, db.nextId)
    ensures var (next, after) := SignupStep(q, pc, db, now);
      if SignupCommits(q, pc, EmailTaken(db, q.email)) then
        && next == Authenticated(db.nextId, InitialRoles(q.kind))
        && after == SignedUp(db, q.kind, SignupRow(q.kind, q.name, q.email, q.hash.value, now))
      else after == db && (next.Authenticated? ==> pc == next)
  {
    if SignupCommits(q, pc, EmailTaken(db, q.email)) {
      SignupWrites(db, q.kind, q.name, q.email, q.hash.value, now);
    }
  }

  /** A write of a program keeps the tables sound and lets them only evolve. */
  ghost predicate Keeps(db: Db, after: Db) {
    Sound(after) && Evolves(db, after)
  }

  lemma NoWriteKeeps(db: Db)
    requires Sound(db)
    ensures Keeps(db, db)
  {
    EvolvesReflexive(db);
  }

  lemma SignupKeeps(q: Request, pc: Pc, db: Db, now: Time)
    requires q.Signup? && Sound(db) && Holds(db, q, pc)
    ensures Keeps(db, SignupStep(q, pc, db, now).1)
  {
    if pc.EmailFree? && q.hash.Some? {
      SignupSound(db, q.kind, q.name, q.email, q.hash.value, now);
    } else {
      NoWriteKeeps(db);
    }
  }

  lemma UpgradeKeeps(q: Request, pc: Pc, db: Db, now: Time)
    requires q.Upgrade? && Sound(db) && Admitted(db, q) && Holds(db, q, pc)
    ensures Keeps(db, UpgradeStep(q, pc, db, now).1)
  {
    if pc.RolesRead? {
      assert pc.roles + [Recruiter] == [JobSeeker, Recruiter];
      UpgradeSound(db, q.userId, q.company, now);
    } else {
      NoWriteKeeps(db);
    }
  }

  lemma SignupHolds(q: Request, pc: Pc, db: Db, now: Time)
    requires q.Signup? && ProfilesLinked(db.users, db.seekers, db.recruiters) && Below(db.users, db.nextId)
    requires Holds(db, q, pc)
    ensures var (next, after) := SignupStep(q, pc, db, now); Holds(after, q, next)
  {
    SignupEffect(q, pc, db, now);
  }

  lemma UpgradeReadHolds(q: Request, db: Db, now: Time)
    requires q.Upgrade? && AccountsSound(db) && Admitted(db, q)
    ensures Holds(db, q, UpgradeStep(q, Start, db, now).0)
  {
    assert db.users[q.userId].roles == RoleList(true, HasRecruiter(db, q.userId));
  }

  lemma UpgradeCommitHolds(q: Request, pc: Pc, db: Db, now: Time)
    requires q.Upgrade? && q.userId in db.users && pc == RolesRead([JobSeeker])
    ensures var (next, after) := UpgradeStep(q, pc, db, now); Holds(after, q, next)
  {
    UpgradeWrites(db, q.userId, pc.roles + [Recruiter], q.company, now);
    assert pc.roles + [Recruiter] == [JobSeeker, Recruiter];
  }

  lemma UpgradeHolds(q: Request, pc: Pc, db: Db, now: Time)
    requires q.Upgrade? && Sound(db) && Admitted(db, q) && Holds(db, q, pc)
    ensures var (next, after) := UpgradeStep(q, pc, db, now); Holds(after, q, next)
  {
    if pc.Start? {
      UpgradeReadHolds(q, db, now);
    } else if pc.RolesRead? {
      UpgradeCommitHolds(q, pc, db, now);
    }
  }

  ghost predicate RolesHeld(users: map<Id, User>) {
    forall u :: u in users ==> users[u].roles != []
  }

  lemma RolesAreHeld(users: map<Id, User>, seekers: map<Id, SeekerProfile>, recruiters: map<Id, RecruiterProfile>)
    requires RolesMatch(users, seekers, recruiters)
    ensures RolesHeld(users)
  {
  }

  lemma SessionHolds(q: Request, pc: Pc, db: Db, now: Time)
    requires (q.Login? || q.Refresh?) && UsersActive(db.users) && RolesHeld(db.users) && Admitted(db, q) && Holds(db, q, pc)
    ensures var (next, after) := Advance(q, pc, db, now); after == db && Holds(db, q, next)
  {
  }

  lemma CreateJobKeeps(q: Request, pc: Pc, db: Db, now: Time)
    requires q.CreateJob? && ContentSound(db)
    ensures ContentWritten(db, CreateJobStep(q, pc, db, now).1)
  {
    if pc.Resolved? {
      InsertJobSound(db, pc.profileId, q.form, now);
    } else {
      NothingWritten(db);
    }
  }

  lemma UpdateJobKeeps(q: Request, pc: Pc, db: Db, now: Time)
    requires q.UpdateJob? && ContentSound(db)
    ensures ContentWritten(db, UpdateJobStep(q, pc, db, now).1)
  {
    if pc.Checked? {
      PatchJobSound(db, q.jobId, q.patch, now);
    } else {
      NothingWritten(db);
    }
  }

  lemma RemoveJobKeeps(q: Request, pc: Pc, db: Db)
    requires q.RemoveJob? && ContentSound(db)
    ensures ContentWritten(db, RemoveJobStep(q, pc, db).1)
  {
    if pc.Checked? {
      DeleteJobSound(db, q.jobId);
    } else {
      NothingWritten(db);
    }
  }

  lemma WithdrawKeeps(q: Request, pc: Pc, db: Db)
    requires q.Withdraw? && ContentSound(db)
    ensures ContentWritten(db, WithdrawStep(q, pc, db).1)
  {
    if pc.Checked? {
      DeleteApplicationSound(db, q.applicationId);
    } else {
      NothingWritten(db);
    }
  }

  lemma ReviewKeeps(q: Request, pc: Pc, db: Db, now: Time)
    requires q.Review? && ContentSound(db)
    ensures ContentWritten(db, ReviewStep(q, pc, db, now).1)
  {
    if pc.Checked? {
      SetStatusSound(db, q.applicationId, q.status, now);
    } else {
      NothingWritten(db);
    }
  }

  lemma UnsaveKeeps(q: Request, pc: Pc, db: Db)
    requires q.Unsave? && ContentSound(db)
    ensures ContentWritten(db, UnsaveStep(q, pc, db).1)
  {
    if pc.Resolved? {
      DeleteSavedSound(db, q.jobId, pc.profileId);
    } else {
      NothingWritten(db);
    }
  }

  lemma ApplyKeeps(q: Request, pc: Pc, db: Db, now: Time)
    requires q.Apply? && ContentSound(db)
    ensures ContentWritten(db, ApplyStep(q, pc, db, now).1)
  {
    if pc.NoDuplicate? {
      InsertApplicationSound(db, q.jobId, pc.profileId, q.coverLetter, now);
    } else {
      NothingWritten(db);
    }
  }

  lemma SaveKeeps(q: Request, pc: Pc, db: Db, now: Time)
    requires q.Save? && ContentSound(db)
    ensures ContentWritten(db, SaveStep(q, pc, db, now).1)
  {
    if pc.Checked? {
      UpsertSavedSound(db, q.jobId, pc.profileId, now);
    } else {
      NothingWritten(db);
    }
  }

  lemma PostingHolds(q: Request, pc: Pc, db: Db, now: Time)
    requires (q.CreateJob? || q.UpdateJob?) && ContentSound(db) && Admitted(db, q) && Holds(db, q, pc)
    ensures var (next, after) := Advance(q, pc, db, now); Holds(after, q, next)
  {
  }

  lemma RecruiterHolds(q: Request, pc: Pc, db: Db, now: Time)
    requires AsRecruiter(q) && ContentSound(db) && Admitted(db, q) && Holds(db, q, pc)
    ensures var (next, after) := Advance(q, pc, db, now); Holds(after, q, next)
  {
    if q.CreateJob? || q.UpdateJob? {
      PostingHolds(q, pc, db, now);
    }
  }

  lemma SeekerHolds(q: Request, pc: Pc, db: Db, now: Time)
    requires AsSeeker(q) && !q.Upgrade? && ContentSound(db) && Admitted(db, q) && Holds(db, q, pc)
    ensures var (next, after) := Advance(q, pc, db, now); Holds(after, q, next)
  {
    if q.Apply? || q.Save? {
      DeliveryHolds(q, pc, db, now);
    }
  }

  lemma DeliveryHolds(q: Request, pc: Pc, db: Db, now: Time)
    requires (q.Apply? || q.Save?) && ContentSound(db) && Admitted(db, q) && Holds(db, q, pc)
    ensures var (next, after) := Advance(q, pc, db, now); Holds(after, q, next)
  {
  }

  lemma ContentKeeps(q: Request, pc: Pc, db: Db, now: Time)
    requires (AsRecruiter(q) || AsSeeker(q)) && !q.Upgrade? && Sound(db)
    ensures Keeps(db, Advance(q, pc, db, now).1)
  {
    match q {
      case CreateJob(_, _) => CreateJobKeeps(q, pc, db, now);
      case UpdateJob(_, _, _) => UpdateJobKeeps(q, pc, db, now);
      case RemoveJob(_, _) => RemoveJobKeeps(q, pc, db);
      case Withdraw(_, _) => WithdrawKeeps(q, pc, db);
      case Review(_, _, _) => ReviewKeeps(q, pc, db, now);
      case Unsave(_, _) => UnsaveKeeps(q, pc, db);
      case Apply(_, _, _) => ApplyKeeps(q, pc, db, now);
      case Save(_, _) => SaveKeeps(q, pc, db, now);
    }
    ContentWrite(db, Advance(q, pc, db, now).1);
  }

  lemma AccountKeeps(q: Request, pc: Pc, db: Db, now: Time)
    requires !AsRecruiter(q) && (!AsSeeker(q) || q.Upgrade?)
    requires Sound(db) && Admitted(db, q) && Holds(db, q, pc)
    ensures var (next, after) := Advance(q, pc, db, now); Sound(after) && Evolves(db, after) && Holds(after, q, next)
  {
    if q.Signup? {
      SignupKeeps(q, pc, db, now);
      SignupHolds(q, pc, db, now);
    } else if q.Upgrade? {
      UpgradeKeeps(q, pc, db, now);
      UpgradeHolds(q, pc, db, now);
    } else {
      RolesAreHeld(db.users, db.seekers, db.recruiters);
      SessionHolds(q, pc, db, now);
      EvolvesReflexive(db);
    }
  }

  /** One statement of any admitted request, on any sound tables. */
  lemma AdvanceKeeps(q: Request, pc: Pc, db: Db, now: Time)
    requires Sound(db) && Admitted(db, q) && Holds(db, q, pc)
    ensures var (next, after) := Advance(q, pc, db, now); Sound(after) && Evolves(db, after) && Holds(after, q, next)
  {
    if !AsRecruiter(q) && (!AsSeeker(q) || q.Upgrade?) {
      AccountKeeps(q, pc, db, now);
    } else {
      ContentKeeps(q, pc, db, now);
      if AsRecruiter(q) {
        RecruiterHolds(q, pc, db, now);
      } else {
        SeekerHolds(q, pc, db, now);
      }
    }
  }
}
