/**
 A request served from its first statement to its answer while the other clients do what their schedule says: the
 statements of its program, one after the other. The methods of Services are proved to do exactly this.
 */
module Serving {
  import opened Wrappers
  import opened Errors
  import opened Schema
  import opened Programs
  import opened Database

  /** Where the program stands, and the tables, after its first n statements and the others' moves after each. */
  ghost function After(q: Request, db: Db, others: Schedule, t: nat, n: nat): (Pc, Db) {
    if n == 0 then (Start, db)
    else
      var (pc, seen) := After(q, db, others, t, n - 1);
      if pc.Finished? then (pc, seen)
      else
        var (next, left) := Advance(q, pc, seen, NowAt(others, t + n - 1));
        (next, if next.Finished? then left else FoundAt(others, t + n - 1, left))
  }

  /** Begun at time t on tables `db`, the program stands at `pc` at time u, and finds the tables `seen`. */
  ghost predicate Reached(q: Request, db: Db, others: Schedule, t: nat, u: nat, pc: Pc, seen: Db) {
    t <= u && After(q, db, others, t, u - t) == (pc, seen)
  }

  /** Begun at time t on tables `db`, the program answered `r` at time u and left the tables `left`. */
  ghost predicate Served(q: Request, db: Db, others: Schedule, t: nat, u: nat, r: Outcome, left: Db) {
    Reached(q, db, others, t, u + 1, Finished(r), left)
  }

  lemma {:induction false} StaysFinished(q: Request, db: Db, others: Schedule, t: nat, n: nat, m: nat)
    requires n <= m && After(q, db, others, t, n).0.Finished?
    ensures After(q, db, others, t, m) == After(q, db, others, t, n)
  {
    if n < m {
      StaysFinished(q, db, others, t, n, m - 1);
    }
  }

  lemma FinishesOnce(q: Request, db: Db, others: Schedule, t: nat, n: nat, m: nat)
    requires After(q, db, others, t, n).0.Finished? && After(q, db, others, t, m).0.Finished?
    ensures After(q, db, others, t, n) == After(q, db, others, t, m)
  {
    if n <= m {
      StaysFinished(q, db, others, t, n, m);
    } else {
      StaysFinished(q, db, others, t, m, n);
    }
  }

  /** A request has one answer, and leaves one version of the tables. */
  lemma ServedOnce(q: Request, db: Db, others: Schedule, t: nat, u: nat, r: Outcome, left: Db, v: nat, r': Outcome, left': Db)
    requires Served(q, db, others, t, u, r, left) && Served(q, db, others, t, v, r', left')
    ensures r == r' && left == left'
  {
    FinishesOnce(q, db, others, t, u + 1 - t, v + 1 - t);
  }

  lemma Begins(q: Request, db: Db, others: Schedule, t: nat)
    ensures Reached(q, db, others, t, t, Start, db)
  {
  }

  /** One statement: the program answers, or the others run and it stands at the next. */
  lemma Runs(q: Request, db: Db, others: Schedule, t: nat, u: nat, pc: Pc, seen: Db)
    requires Reached(q, db, others, t, u, pc, seen) && !pc.Finished?
    ensures var (next, left) := Advance(q, pc, seen, NowAt(others, u));
      if next.Finished? then Served(q, db, others, t, u, next.outcome, left)
      else Reached(q, db, others, t, u + 1, next, FoundAt(others, u, left))
  {
    var (next, left) := Advance(q, pc, seen, NowAt(others, u));
    assert u + 1 - t - 1 == u - t;
    assert Reached(q, db, others, t, u + 1, next, if next.Finished? then left else FoundAt(others, u, left));
  }

  lemma ApplyChecks(q: Request, db: Db, others: Schedule, t: nat, u: nat, p: Id, seen: Db)
    requires q.Apply? && Reached(q, db, others, t, u, Checked(p), seen)
    ensures if ApplicationsOf(seen, q.jobId, p) != {} then Served(q, db, others, t, u, Failure(App(AlreadyApplied)), seen)
            else Reached(q, db, others, t, u + 1, NoDuplicate(p), FoundAt(others, u, seen))
  {
    Runs(q, db, others, t, u, Checked(p), seen);
  }

  lemma ApplyInserts(q: Request, db: Db, others: Schedule, t: nat, u: nat, p: Id, seen: Db)
    requires q.Apply? && Reached(q, db, others, t, u, NoDuplicate(p), seen)
    ensures var (left, r) := InsertApplication(seen, q.jobId, p, q.coverLetter, NowAt(others, u));
      Served(q, db, others, t, u, Answer(r), left)
  {
    Runs(q, db, others, t, u, NoDuplicate(p), seen);
  }

  lemma ReviewWrites(q: Request, db: Db, others: Schedule, t: nat, u: nat, p: Id, seen: Db)
    requires q.Review? && Reached(q, db, others, t, u, Checked(p), seen)
    ensures var left := SetStatus(seen, q.applicationId, q.status, NowAt(others, u));
      Reached(q, db, others, t, u + 1, Written(q.applicationId), FoundAt(others, u, left))
  {
    Runs(q, db, others, t, u, Checked(p), seen);
  }

  lemma UpdateWrites(q: Request, db: Db, others: Schedule, t: nat, u: nat, p: Id, seen: Db)
    requires q.UpdateJob? && Reached(q, db, others, t, u, Checked(p), seen)
    ensures var left := PatchJob(seen, q.jobId, q.patch, NowAt(others, u));
      if q.patch == NO_CHANGE then Served(q, db, others, t, u, FetchJob(seen, q.jobId), seen)
      else Reached(q, db, others, t, u + 1, Written(q.jobId), FoundAt(others, u, left))
  {
    Runs(q, db, others, t, u, Checked(p), seen);
  }

  /** The last statement of a method that ends by fetching the row it wrote. */
  lemma Fetches(q: Request, db: Db, others: Schedule, t: nat, u: nat, id: Id, seen: Db)
    requires (q.CreateJob? || q.UpdateJob? || q.Review?) && Reached(q, db, others, t, u, Written(id), seen)
    ensures Served(q, db, others, t, u, if q.Review? then FetchApplicant(seen, id) else FetchJob(seen, id), seen)
  {
    Runs(q, db, others, t, u, Written(id), seen);
  }

  lemma ChecksOwner(q: Request, db: Db, others: Schedule, t: nat, u: nat, p: Id, seen: Db)
    requires (q.UpdateJob? || q.RemoveJob?) && Reached(q, db, others, t, u, Resolved(p), seen)
    ensures if q.jobId !in seen.jobs then Served(q, db, others, t, u, Failure(App(JobNotFound)), seen)
            else if seen.jobs[q.jobId].recruiterId != p then Served(q, db, others, t, u, Failure(App(NotJobOwner)), seen)
            else Reached(q, db, others, t, u + 1, Checked(p), FoundAt(others, u, seen))
  {
    Runs(q, db, others, t, u, Resolved(p), seen);
  }
}
