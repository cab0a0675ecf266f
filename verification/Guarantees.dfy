/** What every interleaving guarantees the callers: authorisation, ownership, and columns that never change. */
module Guarantees {
  import opened Wrappers
  import opened Errors
  import opened Schema
  import opened Integrity
  import opened Programs
  import opened Stability
  import opened Protocol
  import opened Safety

  // ---- Tokens and gates ----

  /** Every token ever issued carries only roles its user holds now, each backed by a profile row. */
  lemma TokensNeverOverstate(c: Config, actions: seq<Action>, t: Token)
    requires t in Run(c, actions).issued
    ensures var db := Run(c, actions).db;
      && t.userId in db.users
      && (forall r :: r in t.roles ==> r in db.users[t.userId].roles)
      && (JobSeeker in t.roles ==> HasSeeker(db, t.userId))
      && (Recruiter in t.roles ==> HasRecruiter(db, t.userId))
  {
    EveryRunConsistent(c, actions);
    var db := Run(c, actions).db;
    assert TokenOk(db.users, t);
    RoleMeansProfile(db, t);
    forall r | r in t.roles ensures r in db.users[t.userId].roles {
      var i :| 0 <= i < |t.roles| && t.roles[i] == r;
      assert db.users[t.userId].roles[i] == r;
    }
  }

  /** A request that passed the gate finds its caller's own profile row, however late its first statement runs. */
  lemma GatedRequestFindsProfile(c: Config, actions: seq<Action>, k: nat, now: Time)
    requires k in Run(c, actions).calls
    requires var call := Run(c, actions).calls[k];
      call.pc == Start && (AsRecruiter(call.request) || (AsSeeker(call.request) && !call.request.Upgrade?))
    ensures var s := Run(c, actions); var call := s.calls[k]; var (next, _) := Advance(call.request, call.pc, s.db, now);
      next.Resolved? && OwnProfile(s.db, call.request, next.profileId)
  {
    CallsInRuns(c, actions);
    assert CallOk(Run(c, actions).db, Run(c, actions).calls[k]);
  }

  /** The same for a delivery: the profile the queued payload's user had when it was enqueued is still there. */
  lemma DeliveryFindsProfile(c: Config, actions: seq<Action>, w: nat, now: Time)
    requires w in Run(c, actions).slots && Run(c, actions).slots[w].pc == Start
    ensures var s := Run(c, actions); var t := s.slots[w].taskId;
      && t in s.enqueued
      && var q := RequestOf(s.enqueued[t]);
      && Advance(q, Start, s.db, now).0.Resolved?
      && OwnProfile(s.db, q, Advance(q, Start, s.db, now).0.profileId)
  {
    SlotsInRuns(c, actions);
    assert SlotOk(Run(c, actions).db, Run(c, actions).enqueued, Run(c, actions).slots[w]);
  }

  /** No run reports "profile not found", "Only Job Seekers can upgrade", "no longer active" or "deactivated". */
  lemma DeadBranchesNeverTaken(c: Config, actions: seq<Action>)
    ensures var s := Run(c, actions);
      && (forall k :: k in s.calls && s.calls[k].pc.Finished? ==> !DeadBranch(s.calls[k].pc.outcome))
      && (forall w :: w in s.slots && s.slots[w].pc.Finished? ==> !DeadBranch(s.slots[w].pc.outcome))
  {
    CallsInRuns(c, actions);
    SlotsInRuns(c, actions);
    var s := Run(c, actions);
    forall k | k in s.calls && s.calls[k].pc.Finished? ensures !DeadBranch(s.calls[k].pc.outcome) {
      assert CallOk(s.db, s.calls[k]);
    }
    forall w | w in s.slots && s.slots[w].pc.Finished? ensures !DeadBranch(s.slots[w].pc.outcome) {
      assert SlotOk(s.db, s.enqueued, s.slots[w]);
    }
  }

  // ---- Ownership ----

  ghost predicate OwnsJob(db: Db, u: Id, j: Id) {
    j in db.jobs && db.jobs[j].recruiterId in db.recruiters && db.recruiters[db.jobs[j].recruiterId].userId == u
  }

  ghost predicate Same<V>(a: map<Id, V>, b: map<Id, V>, k: Id) {
    k in a ==> k in b && b[k] == a[k]
  }

  /** Every row that is different in `b`, or gone, was the user's own in `a`. */
  ghost predicate OnlyOwnRows(a: Db, b: Db, u: Id) {
    && (forall x :: x in a.users ==> Same(a.users, b.users, x) || x == u)
    && (forall j :: j in a.jobs ==> Same(a.jobs, b.jobs, j) || OwnsJob(a, u, j))
    && (forall x :: x in a.applications ==>
          Same(a.applications, b.applications, x)
          || OwnsJob(a, u, a.applications[x].jobId) || IsSeeker(a, u, a.applications[x].seekerId))
    && (forall r :: r in a.saved ==>
          Same(a.saved, b.saved, r) || OwnsJob(a, u, a.saved[r].jobId) || IsSeeker(a, u, a.saved[r].seekerId))
  }

  ghost predicate NoRowTouched(a: Db, b: Db) {
    && (forall x :: x in a.users ==> Same(a.users, b.users, x))
    && (forall j :: j in a.jobs ==> Same(a.jobs, b.jobs, j))
    && (forall x :: x in a.applications ==> Same(a.applications, b.applications, x))
    && (forall r :: r in a.saved ==> Same(a.saved, b.saved, r))
  }

  predicate HasCaller(q: Request) {
    !q.Signup? && !q.Login?
  }

  lemma CreationTouchesOwn(q: Request, pc: Pc, db: Db, now: Time)
    requires q.Refresh? || q.CreateJob?
    requires Below(db.jobs, db.nextId)
    ensures OnlyOwnRows(db, Advance(q, pc, db, now).1, q.userId)
  {
  }

  lemma UpgradeTouchesOwn(q: Request, pc: Pc, db: Db, now: Time)
    requires q.Upgrade? && q.userId in db.users
    ensures OnlyOwnRows(db, UpgradeStep(q, pc, db, now).1, q.userId)
  {
    if pc.RolesRead? {
      UpgradeWrites(db, q.userId, pc.roles + [Recruiter], q.company, now);
    }
  }

  lemma UpdateTouchesOwn(q: Request, pc: Pc, db: Db, now: Time)
    requires q.UpdateJob? && Holds(db, q, pc)
    ensures OnlyOwnRows(db, UpdateJobStep(q, pc, db, now).1, q.userId)
  {
  }

  lemma ReviewTouchesOwn(q: Request, pc: Pc, db: Db, now: Time)
    requires q.Review? && Holds(db, q, pc)
    ensures OnlyOwnRows(db, ReviewStep(q, pc, db, now).1, q.userId)
  {
  }

  lemma RemovalTouchesOwn(q: Request, pc: Pc, db: Db, now: Time)
    requires q.RemoveJob? && Holds(db, q, pc)
    requires ApplicationsLinked(db.applications, db.jobs, db.seekers) && SavedLinked(db.saved, db.jobs, db.seekers)
    ensures OnlyOwnRows(db, Advance(q, pc, db, now).1, q.userId)
  {
  }

  lemma WithdrawalTouchesOwn(q: Request, pc: Pc, db: Db, now: Time)
    requires (q.Withdraw? || q.Unsave?) && Holds(db, q, pc)
    ensures OnlyOwnRows(db, Advance(q, pc, db, now).1, q.userId)
  {
  }

  lemma UntouchedIsOwn(a: Db, b: Db, u: Id)
    requires NoRowTouched(a, b)
    ensures OnlyOwnRows(a, b, u)
  {
  }

  lemma AdvanceTouchesOwn(q: Request, pc: Pc, db: Db, now: Time)
    requires HasCaller(q) && ContentSound(db) && Holds(db, q, pc) && (q.Upgrade? ==> q.userId in db.users)
    ensures OnlyOwnRows(db, Advance(q, pc, db, now).1, q.userId)
  {
    if q.Refresh? || q.CreateJob? {
      CreationTouchesOwn(q, pc, db, now);
    } else if q.Upgrade? {
      UpgradeTouchesOwn(q, pc, db, now);
    } else if q.RemoveJob? {
      RemovalTouchesOwn(q, pc, db, now);
    } else if q.UpdateJob? {
      UpdateTouchesOwn(q, pc, db, now);
    } else if q.Review? {
      ReviewTouchesOwn(q, pc, db, now);
    } else if q.Withdraw? || q.Unsave? {
      WithdrawalTouchesOwn(q, pc, db, now);
    } else {
      WorkerInsertsOnly(q, pc, db, now);
      UntouchedIsOwn(db, Advance(q, pc, db, now).1, q.userId);
    }
  }

  lemma SignupInsertsOnly(q: Request, pc: Pc, db: Db, now: Time)
    requires q.Signup? || q.Login?
    requires Below(db.users, db.nextId) && ProfilesLinked(db.users, db.seekers, db.recruiters)
    ensures NoRowTouched(db, Advance(q, pc, db, now).1)
  {
    if q.Signup? {
      SignupEffect(q, pc, db, now);
    }
  }

  lemma WorkerInsertsOnly(q: Request, pc: Pc, db: Db, now: Time)
    requires (q.Apply? || q.Save?) && Below(db.applications, db.nextId) && Below(db.saved, db.nextId)
    ensures NoRowTouched(db, Advance(q, pc, db, now).1)
  {
    if q.Apply? {
      ApplyInsertsOnly(q, pc, db, now);
    } else {
      SaveInsertsOnly(q, pc, db, now);
    }
  }

  lemma ApplyInsertsOnly(q: Request, pc: Pc, db: Db, now: Time)
    requires q.Apply? && Below(db.applications, db.nextId)
    ensures NoRowTouched(db, ApplyStep(q, pc, db, now).1)
  {
  }

  lemma SaveInsertsOnly(q: Request, pc: Pc, db: Db, now: Time)
    requires q.Save? && Below(db.saved, db.nextId)
    ensures NoRowTouched(db, SaveStep(q, pc, db, now).1)
  {
  }

  /**
   Whatever ran between a request's checks and its write, the write changes or removes only rows that are the
   caller's own at that moment.
   */
  lemma OnlyOwnersChangeRows(c: Config, actions: seq<Action>, k: nat, now: Time)
    requires k in Run(c, actions).calls && HasCaller(Run(c, actions).calls[k].request)
    ensures var s := Run(c, actions);
      OnlyOwnRows(s.db, Step(c, s, RunCall(k, now)).db, s.calls[k].request.userId)
  {
    TablesInRuns(c, actions);
    CallsInRuns(c, actions);
    var s := Run(c, actions);
    assert CallOk(s.db, s.calls[k]);
    if Enabled(c, s, RunCall(k, now)) {
      TablesAfter(c, s, RunCall(k, now));
      CallTouches(s.db, s.calls[k], now);
    }
  }

  /** Signup and login touch no existing row. */
  lemma CallersAbsentInsertOnly(c: Config, actions: seq<Action>, k: nat, now: Time)
    requires k in Run(c, actions).calls && !HasCaller(Run(c, actions).calls[k].request)
    ensures NoRowTouched(Run(c, actions).db, Step(c, Run(c, actions), RunCall(k, now)).db)
  {
    TablesInRuns(c, actions);
    CallsInRuns(c, actions);
    var s := Run(c, actions);
    assert CallOk(s.db, s.calls[k]);
    if Enabled(c, s, RunCall(k, now)) {
      TablesAfter(c, s, RunCall(k, now));
      CallTouches(s.db, s.calls[k], now);
    }
  }

  /** Worker deliveries touch no existing row. */
  lemma WorkersInsertOnly(c: Config, actions: seq<Action>, w: nat, now: Time)
    ensures NoRowTouched(Run(c, actions).db, Step(c, Run(c, actions), RunSlot(w, now)).db)
  {
    TablesInRuns(c, actions);
    var s := Run(c, actions);
    if Enabled(c, s, RunSlot(w, now)) {
      TablesAfter(c, s, RunSlot(w, now));
      SlotTouches(s.db, RequestOf(s.enqueued[s.slots[w].taskId]), s.slots[w].pc, now);
    }
  }

  /** No other step writes to the tables. */
  lemma OtherStepsWriteNothing(c: Config, s: State, a: Action)
    requires !a.RunCall? && !a.RunSlot?
    ensures Step(c, s, a).db == s.db
  {
  }

  /** The user in whose name a step writes: the caller of a statement, if the request has one. */
  function Actor(s: State, a: Action): Option<Id> {
    if a.RunCall? && a.call in s.calls && HasCaller(s.calls[a.call].request)
    then Some(s.calls[a.call].request.userId) else None
  }

  /** Every step of every run changes or removes only rows of the user it acts for, and no row if it acts for none. */
  lemma EveryStepSparesOthers(c: Config, actions: seq<Action>, a: Action)
    ensures var s := Run(c, actions); var after := Step(c, s, a);
      match Actor(s, a)
      case Some(u) => OnlyOwnRows(s.db, after.db, u)
      case None => NoRowTouched(s.db, after.db)
  {
    var s := Run(c, actions);
    if a.RunSlot? {
      WorkersInsertOnly(c, actions, a.slot, a.now);
    } else if !a.RunCall? {
      OtherStepsWriteNothing(c, s, a);
    } else if a.call in s.calls {
      if HasCaller(s.calls[a.call].request) {
        OnlyOwnersChangeRows(c, actions, a.call, a.now);
      } else {
        CallersAbsentInsertOnly(c, actions, a.call, a.now);
      }
    }
  }

  lemma CallTouches(db: Db, call: Call, now: Time)
    requires Sound(db) && CallOk(db, call)
    ensures var after := Advance(call.request, call.pc, db, now).1;
      if HasCaller(call.request) then OnlyOwnRows(db, after, call.request.userId) else NoRowTouched(db, after)
  {
    if HasCaller(call.request) {
      AdvanceTouchesOwn(call.request, call.pc, db, now);
    } else {
      SignupInsertsOnly(call.request, call.pc, db, now);
    }
  }

  lemma SlotTouches(db: Db, q: Request, pc: Pc, now: Time)
    requires Sound(db) && (q.Apply? || q.Save?)
    ensures NoRowTouched(db, Advance(q, pc, db, now).1)
  {
    WorkerInsertsOnly(q, pc, db, now);
  }

  // ---- Answers that show a row ----

  /**
   In every run a request that answers with a job shows the row in the table at that moment, every column of it, under
   the name of the company that owns it; the job is the caller's, and for an update the one that was asked for.
   */
  lemma JobAnswersShowTheRow(c: Config, actions: seq<Action>, k: nat, now: Time, v: JobView)
    requires k in Run(c, actions).calls && !Run(c, actions).calls[k].pc.Finished?
    requires var after := Step(c, Run(c, actions), RunCall(k, now));
      after.calls[k].pc == Finished(Success(FetchedJob(v)))
    ensures var s := Run(c, actions); var q := s.calls[k].request;
      && Step(c, s, RunCall(k, now)).db == s.db
      && v.id in s.db.jobs && OwnsJob(s.db, q.userId, v.id) && (q.UpdateJob? ==> v.id == q.jobId)
      && v.job.recruiterId == s.db.jobs[v.id].recruiterId && v.job.title == s.db.jobs[v.id].title
      && v.job.description == s.db.jobs[v.id].description && v.job.requirements == s.db.jobs[v.id].requirements
      && v.job.location == s.db.jobs[v.id].location && v.job.salaryRange == s.db.jobs[v.id].salaryRange
      && v.job.category == s.db.jobs[v.id].category && v.job.isActive == s.db.jobs[v.id].isActive
      && v.job.createdAt == s.db.jobs[v.id].createdAt && v.job.updatedAt == s.db.jobs[v.id].updatedAt
      && v.companyName == s.db.recruiters[s.db.jobs[v.id].recruiterId].company.name
  {
    CallsInRuns(c, actions);
    var s := Run(c, actions);
    assert CallOk(s.db, s.calls[k]);
    JobAnswered(s.calls[k].request, s.calls[k].pc, s.db, now, v);
  }

  lemma JobAnswered(q: Request, pc: Pc, db: Db, now: Time, v: JobView)
    requires Holds(db, q, pc) && !pc.Finished? && Advance(q, pc, db, now).0 == Finished(Success(FetchedJob(v)))
    ensures Advance(q, pc, db, now).1 == db && (q.CreateJob? || q.UpdateJob?)
    ensures v.id in db.jobs && OwnsJob(db, q.userId, v.id) && (q.UpdateJob? ==> v.id == q.jobId)
    ensures v.job == db.jobs[v.id] && v.companyName == db.recruiters[db.jobs[v.id].recruiterId].company.name
  {
  }

  /** In every run a review answers with the row it reviewed as it is at that moment, and with its applicant. */
  lemma ReviewAnswersShowTheRow(c: Config, actions: seq<Action>, k: nat, now: Time, v: ApplicantView)
    requires k in Run(c, actions).calls && !Run(c, actions).calls[k].pc.Finished?
    requires var after := Step(c, Run(c, actions), RunCall(k, now));
      after.calls[k].pc == Finished(Success(FetchedApplicant(v)))
    ensures var s := Run(c, actions); var q := s.calls[k].request;
      && q.Review? && v.id == q.applicationId && v.id in s.db.applications && v.row == s.db.applications[v.id]
      && v.row.seekerId in s.db.seekers && s.db.seekers[v.row.seekerId].userId in s.db.users
      && v.name == s.db.users[s.db.seekers[v.row.seekerId].userId].name
      && v.email == s.db.users[s.db.seekers[v.row.seekerId].userId].email
  {
    CallsInRuns(c, actions);
    var s := Run(c, actions);
    assert CallOk(s.db, s.calls[k]);
    ReviewAnswered(s.calls[k].request, s.calls[k].pc, s.db, now, v);
  }

  lemma ReviewAnswered(q: Request, pc: Pc, db: Db, now: Time, v: ApplicantView)
    requires Holds(db, q, pc) && !pc.Finished? && Advance(q, pc, db, now).0 == Finished(Success(FetchedApplicant(v)))
    ensures q.Review? && v.id == q.applicationId && v.id in db.applications && v.row == db.applications[v.id]
    ensures v.row.seekerId in db.seekers && db.seekers[v.row.seekerId].userId in db.users
    ensures v.name == db.users[db.seekers[v.row.seekerId].userId].name
    ensures v.email == db.users[db.seekers[v.row.seekerId].userId].email
  {
  }

  // ---- Columns and rows over time ----

  lemma RunsEvolve(c: Config, xs: seq<Action>, ys: seq<Action>)
    ensures Sound(Run(c, xs).db) && Sound(Run(c, xs + ys).db)
    ensures Evolves(Run(c, xs).db, Run(c, xs + ys).db)
  {
    EveryRunConsistent(c, xs);
    ExecAppend(c, INITIAL, xs, ys);
    ExecKeeps(c, Run(c, xs), ys);
  }

  /** No sequence of steps changes a job's owner, activity or creation time, or an application's links and letter. */
  lemma OwnerColumnsNeverChange(c: Config, xs: seq<Action>, ys: seq<Action>)
    ensures var a, b := Run(c, xs).db, Run(c, xs + ys).db;
      && (forall j :: j in a.jobs && j in b.jobs ==> JobKept(a.jobs[j], b.jobs[j]))
      && (forall x :: x in a.applications && x in b.applications ==> ApplicationKept(a.applications[x], b.applications[x]))
      && (forall r :: r in a.saved && r in b.saved ==> b.saved[r] == a.saved[r])
  {
    RunsEvolve(c, xs, ys);
  }

  /** A deleted row's id never names another row. */
  lemma DeletedStaysDeleted(c: Config, xs: seq<Action>, ys: seq<Action>, zs: seq<Action>, id: Id)
    ensures var a, b, d := Run(c, xs).db, Run(c, xs + ys).db, Run(c, xs + ys + zs).db;
      && (id in a.jobs && id !in b.jobs ==> id !in d.jobs)
      && (id in a.applications && id !in b.applications ==> id !in d.applications)
      && (id in a.saved && id !in b.saved ==> id !in d.saved)
  {
    RunsEvolve(c, xs, ys);
    RunsEvolve(c, xs + ys, zs);
  }

  /** Accounts are permanent: a user or profile row, once committed, is in every later state with the same owner. */
  lemma AccountsPermanent(c: Config, xs: seq<Action>, ys: seq<Action>)
    ensures var a, b := Run(c, xs).db, Run(c, xs + ys).db;
      && (forall u :: u in a.users ==> u in b.users && UserKept(a.users[u], b.users[u]))
      && (forall p :: p in a.seekers ==> p in b.seekers && b.seekers[p] == a.seekers[p])
      && (forall p :: p in a.recruiters ==> p in b.recruiters && b.recruiters[p] == a.recruiters[p])
  {
    RunsEvolve(c, xs, ys);
  }

  /** A user holds a role exactly when the profile row of that role exists, in every state. */
  lemma RolesMatchProfiles(c: Config, actions: seq<Action>, u: Id)
    requires u in Run(c, actions).db.users
    ensures var db := Run(c, actions).db; var roles := db.users[u].roles;
      && (JobSeeker in roles <==> HasSeeker(db, u))
      && (Recruiter in roles <==> HasRecruiter(db, u))
      && Admin !in roles
      && roles != [] && (forall i, j :: 0 <= i < j < |roles| ==> roles[i] != roles[j])
  {
    EveryRunConsistent(c, actions);
  }

  // ---- A deletion and what races with it ----

  /** `b` is `a` without job j, its applications and its saved rows. */
  ghost predicate JobGone(a: Db, b: Db, j: Id) {
    && b.users == a.users && b.seekers == a.seekers && b.recruiters == a.recruiters
    && (forall k :: k in b.jobs <==> k in a.jobs && k != j)
    && (forall x :: x in b.applications <==> x in a.applications && a.applications[x].jobId != j)
    && (forall r :: r in b.saved <==> r in a.saved && a.saved[r].jobId != j)
    && (forall k :: k in b.jobs ==> b.jobs[k] == a.jobs[k])
    && (forall x :: x in b.applications ==> b.applications[x] == a.applications[x])
    && (forall r :: r in b.saved ==> b.saved[r] == a.saved[r])
  }

  /**
   However long ago its ownership check was, the write of a job deletion removes exactly that job with its applications
   and saved rows, leaves every other row of all six tables as it is, and the job, if it is still there, is the
   caller's. Nothing that refers to the job remains.
   */
  lemma RemovalIsExact(c: Config, actions: seq<Action>, k: nat, now: Time)
    requires k in Run(c, actions).calls
    requires Run(c, actions).calls[k].request.RemoveJob? && Run(c, actions).calls[k].pc.Checked?
    ensures var s := Run(c, actions); var after, q := Step(c, s, RunCall(k, now)), s.calls[k].request;
      && JobGone(s.db, after.db, q.jobId)
      && (q.jobId in s.db.jobs ==> OwnsJob(s.db, q.userId, q.jobId))
      && after.calls[k].pc == Finished(Success(Done))
      && ApplicationsLinked(after.db.applications, after.db.jobs, after.db.seekers)
      && SavedLinked(after.db.saved, after.db.jobs, after.db.seekers)
  {
    CallsInRuns(c, actions);
    var s := Run(c, actions);
    assert CallOk(s.db, s.calls[k]);
    ExecAppend(c, INITIAL, actions, [RunCall(k, now)]);
    assert Exec(c, s, [RunCall(k, now)]) == Step(c, Exec(c, s, []), RunCall(k, now));
    TablesInRuns(c, actions + [RunCall(k, now)]);
    RemovalWrites(c, s, k, now);
    OwnerKnown(s.db, s.calls[k]);
  }

  lemma RemovalWrites(c: Config, s: State, k: nat, now: Time)
    requires k in s.calls && s.calls[k].request.RemoveJob? && s.calls[k].pc.Checked?
    ensures var after := Step(c, s, RunCall(k, now));
      JobGone(s.db, after.db, s.calls[k].request.jobId) && after.calls[k].pc == Finished(Success(Done))
  {
  }

  lemma OwnerKnown(db: Db, call: Call)
    requires call.request.RemoveJob? && call.pc.Checked? && CallOk(db, call)
    ensures call.request.jobId in db.jobs ==> OwnsJob(db, call.request.userId, call.request.jobId)
  {
  }

  /**
   A delivery whose job is deleted after its existence check ends in a foreign key error and writes nothing.
   */
  lemma InsertAfterRemoval(c: Config, actions: seq<Action>, w: nat, now: Time)
    requires Enabled(c, Run(c, actions), RunSlot(w, now))
    requires var s := Run(c, actions); var q := RequestOf(s.enqueued[s.slots[w].taskId]);
      && q.jobId !in s.db.jobs
      && (if q.Apply? then s.slots[w].pc.NoDuplicate? else s.slots[w].pc.Checked?)
    ensures var s := Run(c, actions); var after := Step(c, s, RunSlot(w, now));
      && after.db == s.db
      && after.slots[w].pc == Finished(Failure(Pg(ForeignKeyViolation)))
      && Classify(Pg(ForeignKeyViolation)) == 500
  {
    SavedOfRemoved(c, actions, RequestOf(Run(c, actions).enqueued[Run(c, actions).slots[w].taskId]).jobId,
                   Run(c, actions).slots[w].pc.profileId);
  }

  lemma SavedOfRemoved(c: Config, actions: seq<Action>, j: Id, p: Id)
    requires j !in Run(c, actions).db.jobs
    ensures SavedOf(Run(c, actions).db, j, p) == {}
  {
    TablesInRuns(c, actions);
    var db := Run(c, actions).db;
    assert forall r :: r in db.saved ==> db.saved[r].jobId != j;
  }
}
