/**
 The connection pool the services share: the tables as mutable fields, and one method per SQL statement. Between two
 statements of a client the other clients run, which `Yield` stands for; `others` says what they do, and may be anything
 that respects the UNIQUE constraints.
 */
module Database {
  import opened Wrappers
  import opened Errors
  import opened Schema
  import opened SetClause

  /** NOW() of a client's statement, and the tables the others leave for its next one. */
  datatype Gap = Gap(now: Time, found: Db)

  /** One gap after another; once they end, at time `rest`, the client is alone. */
  datatype Schedule = Schedule(gaps: seq<Gap>, rest: Time)

  function NowAt(others: Schedule, k: nat): Time {
    if k < |others.gaps| then others.gaps[k].now else others.rest
  }

  function FoundAt(others: Schedule, k: nat, left: Db): Db {
    if k < |others.gaps| then others.gaps[k].found else left
  }

  predicate Differ(a: Id, b: Id) {
    a != b
  }

  /** The UNIQUE constraints of the schema. */
  ghost predicate KeysUnique(db: Db) {
    && (forall u, v {:trigger Differ(u, v)} :: u in db.users && v in db.users && Differ(u, v) ==>
          db.users[u].email != db.users[v].email)
    && (forall p, q {:trigger Differ(p, q)} :: p in db.seekers && q in db.seekers && Differ(p, q) ==>
          db.seekers[p].userId != db.seekers[q].userId)
    && (forall p, q {:trigger Differ(p, q)} :: p in db.recruiters && q in db.recruiters && Differ(p, q) ==>
          db.recruiters[p].userId != db.recruiters[q].userId)
    && (forall r, s {:trigger Differ(r, s)} :: r in db.saved && s in db.saved && Differ(r, s) ==>
          db.saved[r].jobId != db.saved[s].jobId || db.saved[r].seekerId != db.saved[s].seekerId)
  }

  ghost predicate Lawful(others: Schedule) {
    forall k :: 0 <= k < |others.gaps| ==> KeysUnique(others.gaps[k].found)
  }

  class Pool {
    var tables: Db
    var tick: nat
    const others: Schedule

    ghost predicate Valid()
      reads this
    {
      KeysUnique(tables) && Lawful(others)
    }

    function Now(): Time
      reads `tick
    {
      NowAt(others, tick)
    }

    constructor (others: Schedule)
      requires Lawful(others)
      ensures Valid() && tables == EMPTY && tick == 0 && this.others == others
    {
      tables, tick, this.others := EMPTY, 0, others;
    }

    /** The other clients run. */
    method Yield()
      requires Valid()
      modifies this
      ensures Valid() && tick == old(tick) + 1 && tables == FoundAt(others, old(tick), old(tables))
    {
      tables := FoundAt(others, tick, tables);
      tick := tick + 1;
    }

    /** ROLLBACK to the tables as they were at BEGIN. */
    method Rollback(begun: Db)
      requires KeysUnique(begun) && Lawful(others)
      modifies `tables
      ensures Valid() && tables == begun
    {
      tables := begun;
    }

    // ---- Queries ----

    method EmailExists(email: string) returns (taken: bool)
      ensures taken == EmailTaken(tables, email)
    {
      taken := exists u :: u in tables.users && tables.users[u].email == email;
    }

    method SelectUserByEmail(email: string) returns (found: Option<Id>)
      requires Valid()
      ensures found == UserByEmail(tables, email)
      ensures found.Some? ==> found.value in tables.users
    {
      if u :| u in tables.users && tables.users[u].email == email {
        assert !Differ(u, UserByEmail(tables, email).value);
        return Some(u);
      }
      found := None;
    }

    method SelectSeekerId(userId: Id) returns (found: Option<Id>)
      requires Valid()
      ensures found == SeekerOf(tables, userId)
    {
      if p :| p in tables.seekers && tables.seekers[p].userId == userId {
        assert !Differ(p, SeekerOf(tables, userId).value);
        return Some(p);
      }
      found := None;
    }

    method SelectRecruiterId(userId: Id) returns (found: Option<Id>)
      requires Valid()
      ensures found == RecruiterOf(tables, userId)
    {
      if p :| p in tables.recruiters && tables.recruiters[p].userId == userId {
        assert !Differ(p, RecruiterOf(tables, userId).value);
        return Some(p);
      }
      found := None;
    }

    method ApplicationExists(jobId: Id, seekerId: Id) returns (found: bool)
      ensures found == (ApplicationsOf(tables, jobId, seekerId) != {})
    {
      found := ApplicationsOf(tables, jobId, seekerId) != {};
    }

    // ---- Statements ----

    method InsertUser(name: string, email: string, hash: string, roles: seq<Role>) returns (r: Result<Id, Error>)
      requires Valid()
      modifies `tables
      ensures Valid() && (tables, r) == Schema.InsertUser(old(tables), name, email, hash, roles, Now())
    {
      if exists u :: u in tables.users && tables.users[u].email == email {
        return Failure(Pg(UniqueViolation));
      }
      r := Success(tables.nextId);
      tables := tables.(users := tables.users[tables.nextId := User(name, email, hash, roles, true, Now(), Now())],
                        nextId := tables.nextId + 1);
    }

    method InsertSeeker(userId: Id) returns (r: Result<Id, Error>)
      requires Valid()
      modifies `tables
      ensures Valid() && (tables, r) == Schema.InsertSeeker(old(tables), userId)
    {
      if exists p :: p in tables.seekers && tables.seekers[p].userId == userId {
        return Failure(Pg(UniqueViolation));
      }
      if userId !in tables.users {
        return Failure(Pg(ForeignKeyViolation));
      }
      r := Success(tables.nextId);
      tables := tables.(seekers := tables.seekers[tables.nextId := BlankProfile(userId)], nextId := tables.nextId + 1);
    }

    method InsertRecruiter(userId: Id, company: Company) returns (r: Result<Id, Error>)
      requires Valid()
      modifies `tables
      ensures Valid() && (tables, r) == Schema.InsertRecruiter(old(tables), userId, company)
    {
      if exists p :: p in tables.recruiters && tables.recruiters[p].userId == userId {
        return Failure(Pg(UniqueViolation));
      }
      if userId !in tables.users {
        return Failure(Pg(ForeignKeyViolation));
      }
      r := Success(tables.nextId);
      tables := tables.(recruiters := tables.recruiters[tables.nextId := RecruiterProfile(userId, company)],
                        nextId := tables.nextId + 1);
    }

    method SetRoles(userId: Id, roles: seq<Role>) returns (r: Result<Id, Error>)
      requires Valid()
      modifies `tables
      ensures Valid() && (tables, r) == Schema.SetRoles(old(tables), userId, roles, Now())
    {
      if userId !in tables.users {
        return Failure(Driver(NoRows));
      }
      var row := tables.users[userId].(roles := roles, updatedAt := Now());
      tables := tables.(users := tables.users[userId := row]);
      r := Success(userId);
    }

    method InsertJob(recruiterId: Id, form: JobForm) returns (r: Result<Id, Error>)
      requires Valid()
      modifies `tables
      ensures Valid() && (tables, r) == Schema.InsertJob(old(tables), recruiterId, form, Now())
    {
      if recruiterId !in tables.recruiters {
        return Failure(Pg(ForeignKeyViolation));
      }
      r := Success(tables.nextId);
      var row := Job(recruiterId, form.title, form.description, form.requirements, form.location,
                     Some(form.salaryRange), Some(form.category), true, Now(), Now());
      tables := tables.(jobs := tables.jobs[tables.nextId := row], nextId := tables.nextId + 1);
    }

    /** Runs the text of an UPDATE with its arguments. */
    method Exec(text: string, args: seq<Arg>) returns (r: Result<nat, Error>)
      requires Valid()
      modifies `tables
      ensures Valid() && (tables, r) == ExecUpdate(old(tables), text, args, Now())
    {
      var (after, changed) := ExecUpdate(tables, text, args, Now());
      tables, r := after, changed;
    }

    method DeleteJob(jobId: Id)
      requires Valid()
      modifies `tables
      ensures Valid() && tables == Schema.DeleteJob(old(tables), jobId)
    {
      tables := tables.(jobs := tables.jobs - {jobId});
      // ON DELETE CASCADE, once for each table that references jobs.
      tables := tables.(applications := map a | a in tables.applications && tables.applications[a].jobId != jobId
                                          :: tables.applications[a]);
      tables := tables.(saved := map s | s in tables.saved && tables.saved[s].jobId != jobId :: tables.saved[s]);
    }

    method InsertApplication(jobId: Id, seekerId: Id, coverLetter: string) returns (r: Result<Id, Error>)
      requires Valid()
      modifies `tables
      ensures Valid() && (tables, r) == Schema.InsertApplication(old(tables), jobId, seekerId, coverLetter, Now())
    {
      if jobId !in tables.jobs || seekerId !in tables.seekers {
        return Failure(Pg(ForeignKeyViolation));
      }
      r := Success(tables.nextId);
      var row := Application(jobId, seekerId, coverLetter, Submitted, Now(), Now());
      tables := tables.(applications := tables.applications[tables.nextId := row], nextId := tables.nextId + 1);
    }

    method SetStatus(applicationId: Id, status: Status)
      requires Valid()
      modifies `tables
      ensures Valid() && tables == Schema.SetStatus(old(tables), applicationId, status, Now())
    {
      if applicationId in tables.applications {
        var row := tables.applications[applicationId].(status := status, updatedAt := Now());
        tables := tables.(applications := tables.applications[applicationId := row]);
      }
    }

    method DeleteApplication(applicationId: Id)
      requires Valid()
      modifies `tables
      ensures Valid() && tables == Schema.DeleteApplication(old(tables), applicationId)
    {
      tables := tables.(applications := tables.applications - {applicationId});
    }

    method UpsertSaved(jobId: Id, seekerId: Id) returns (r: Result<Id, Error>)
      requires Valid()
      modifies `tables
      ensures Valid() && (tables, r) == Schema.UpsertSaved(old(tables), jobId, seekerId, Now())
    {
      if s :| s in SavedOf(tables, jobId, seekerId) {
        assert !Differ(s, Schema.UpsertSaved(tables, jobId, seekerId, Now()).1.value);
        return Success(s);
      }
      assert forall s :: s in tables.saved ==> s !in SavedOf(tables, jobId, seekerId);
      if jobId !in tables.jobs || seekerId !in tables.seekers {
        return Failure(Pg(ForeignKeyViolation));
      }
      r := Success(tables.nextId);
      var row := SavedJob(jobId, seekerId, Now());
      tables := tables.(saved := tables.saved[tables.nextId := row], nextId := tables.nextId + 1);
    }

    /** The number of rows deleted. */
    method DeleteSaved(jobId: Id, seekerId: Id) returns (rows: nat)
      requires Valid()
      modifies `tables
      ensures Valid() && tables == Schema.DeleteSaved(old(tables), jobId, seekerId)
      ensures rows == |SavedOf(old(tables), jobId, seekerId)|
    {
      var doomed := SavedOf(tables, jobId, seekerId);
      tables := tables.(saved := tables.saved - doomed);
      rows := |doomed|;
    }
  }
}
