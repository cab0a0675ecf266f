/**
 The lists the users see: a seeker's applications, a job's applicants, a recruiter's jobs and the public list
 (internal/services/jobseeker.go, recruiter.go, job.go). In every reachable state they show the same rows.
 */
module Views {
  import opened Schema
  import opened Integrity
  import opened Protocol
  import opened Safety
  import opened Listing

  // ---- Sums over a table's keys ----

  ghost function Sum(m: map<Id, nat>): nat {
    if m == map[] then 0
    else
      var k :| k in m;
      m[k] + Sum(m - {k})
  }

  /** The rows whose foreign key is k. */
  function Fibre(key: map<Id, Id>, k: Id): set<Id> {
    set x | x in key && key[x] == k
  }

  function Within(key: map<Id, Id>, keys: set<Id>): set<Id> {
    set x | x in key && key[x] in keys
  }

  ghost function Lengths(key: map<Id, Id>, keys: set<Id>): map<Id, nat> {
    map k | k in keys :: |Fibre(key, k)|
  }

  lemma FibreSplitsOff(key: map<Id, Id>, keys: set<Id>, k: Id)
    requires k in keys
    ensures |Within(key, keys)| == |Fibre(key, k)| + |Within(key, keys - {k})|
  {
    assert Within(key, keys) == Fibre(key, k) + Within(key, keys - {k});
    assert Fibre(key, k) !! Within(key, keys - {k});
  }

  lemma {:induction false} SumOfFibres(key: map<Id, Id>, keys: set<Id>)
    ensures Sum(Lengths(key, keys)) == |Within(key, keys)|
    decreases |keys|
  {
    var m := Lengths(key, keys);
    if keys == {} {
      assert m == map[];
      assert Within(key, keys) == {};
    } else {
      assert m.Keys == keys && m != map[];
      var k :| k in m && Sum(m) == m[k] + Sum(m - {k});
      assert m - {k} == Lengths(key, keys - {k});
      SumOfFibres(key, keys - {k});
      FibreSplitsOff(key, keys, k);
    }
  }

  lemma SumOfAll<V>(table: map<Id, V>, key: map<Id, Id>, keys: set<Id>)
    requires key.Keys == table.Keys && (forall x :: x in key ==> key[x] in keys)
    ensures Sum(Lengths(key, keys)) == |table|
  {
    SumOfFibres(key, keys);
    assert Within(key, keys) == table.Keys;
  }

  // ---- The two lists of applications ----

  ghost predicate ShownToSeeker(db: Db, s: Id, a: Id, row: Application) {
    exists v :: v in SeekerList(db, s) && v.id == a && v.row == row
  }

  ghost predicate ShownToRecruiter(db: Db, j: Id, a: Id, row: Application) {
    exists v :: v in ApplicantList(db, j) && v.id == a && v.row == row
  }

  lemma SeekerSees(db: Db, s: Id, a: Id, row: Application)
    requires ContentSound(db)
    ensures ShownToSeeker(db, s, a, row) <==> a in db.applications && db.applications[a] == row && row.seekerId == s
  {
    var ids := Ordered(SeekerIds(db, s), AppliedAt(db));
    if ShownToSeeker(db, s, a, row) {
      var v :| v in SeekerList(db, s) && v.id == a && v.row == row;
      var i :| 0 <= i < |ids| && SeekerList(db, s)[i] == v;
      assert ids[i] in ids;
    }
    if a in db.applications && db.applications[a] == row && row.seekerId == s {
      assert a in SeekerIds(db, s);
      var i :| 0 <= i < |ids| && ids[i] == a;
      assert SeekerList(db, s)[i].id == a;
      assert SeekerList(db, s)[i] in SeekerList(db, s);
    }
  }

  lemma RecruiterSees(db: Db, j: Id, a: Id, row: Application)
    requires ApplicationsLinked(db.applications, db.jobs, db.seekers)
    requires ProfilesLinked(db.users, db.seekers, db.recruiters)
    ensures ShownToRecruiter(db, j, a, row) <==> a in db.applications && db.applications[a] == row && row.jobId == j
  {
    var ids := Ordered(ApplicantIds(db, j), AppliedAt(db));
    if ShownToRecruiter(db, j, a, row) {
      var v :| v in ApplicantList(db, j) && v.id == a && v.row == row;
      var i :| 0 <= i < |ids| && ApplicantList(db, j)[i] == v;
      assert ids[i] in ids;
    }
    if a in db.applications && db.applications[a] == row && row.jobId == j {
      assert a in ApplicantIds(db, j);
      var i :| 0 <= i < |ids| && ids[i] == a;
      assert ApplicantList(db, j)[i].id == a;
      assert ApplicantList(db, j)[i] in ApplicantList(db, j);
    }
  }

  /** A seeker sees an application, with its status, exactly when the job's recruiter sees it with that status. */
  lemma ViewsAgree(c: Config, actions: seq<Action>, a: Id, row: Application)
    ensures var db := Run(c, actions).db;
      && (ShownToSeeker(db, row.seekerId, a, row) <==> ShownToRecruiter(db, row.jobId, a, row))
      && (ShownToSeeker(db, row.seekerId, a, row) <==> a in db.applications && db.applications[a] == row)
  {
    TablesInRuns(c, actions);
    var db := Run(c, actions).db;
    SeekerSees(db, row.seekerId, a, row);
    RecruiterSees(db, row.jobId, a, row);
  }

  ghost function SeekerLengths(db: Db): map<Id, nat> {
    map s | s in db.seekers :: |SeekerList(db, s)|
  }

  ghost function ApplicantLengths(db: Db): map<Id, nat> {
    map j | j in db.jobs :: |ApplicantList(db, j)|
  }

  /** The lists of all seekers together, and those of all jobs together, hold each application once. */
  lemma ViewsAddUp(c: Config, actions: seq<Action>)
    ensures var db := Run(c, actions).db;
      && Sum(SeekerLengths(db)) == |db.applications|
      && Sum(ApplicantLengths(db)) == |db.applications|
  {
    TablesInRuns(c, actions);
    var db := Run(c, actions).db;
    SeekerListsAddUp(db);
    ApplicantListsAddUp(db);
  }

  lemma SeekerListsAddUp(db: Db)
    requires ContentSound(db)
    ensures Sum(SeekerLengths(db)) == |db.applications|
  {
    var key := map a | a in db.applications :: db.applications[a].seekerId;
    forall s | s in db.seekers ensures SeekerIds(db, s) == Fibre(key, s) {
    }
    assert SeekerLengths(db) == Lengths(key, db.seekers.Keys);
    SumOfAll(db.applications, key, db.seekers.Keys);
  }

  lemma ApplicantListsAddUp(db: Db)
    requires ApplicationsLinked(db.applications, db.jobs, db.seekers)
    requires ProfilesLinked(db.users, db.seekers, db.recruiters)
    ensures Sum(ApplicantLengths(db)) == |db.applications|
  {
    var key := map a | a in db.applications :: db.applications[a].jobId;
    forall j | j in db.jobs ensures ApplicantIds(db, j) == Fibre(key, j) {
    }
    assert ApplicantLengths(db) == Lengths(key, db.jobs.Keys);
    SumOfAll(db.applications, key, db.jobs.Keys);
  }

  // ---- The lists of jobs ----

  ghost function RecruiterLengths(db: Db): map<Id, nat> {
    map r | r in db.recruiters :: |RecruiterList(db, r)|
  }

  lemma RecruiterListsAddUp(db: Db)
    requires JobsOwned(db.jobs, db.recruiters)
    ensures Sum(RecruiterLengths(db)) == |db.jobs|
  {
    var key := map j | j in db.jobs :: db.jobs[j].recruiterId;
    forall r | r in db.recruiters ensures PostedBy(db, r) == Fibre(key, r) {
    }
    assert RecruiterLengths(db) == Lengths(key, db.recruiters.Keys);
    SumOfAll(db.jobs, key, db.recruiters.Keys);
  }

  lemma UnfilteredIsAll(db: Db, like: Like)
    requires JobsComplete(db.jobs)
    ensures |Counted(db, like, NO_FILTER)| == |db.jobs|
  {
    assert Counted(db, like, NO_FILTER) == db.jobs.Keys;
  }

  lemma AllRowsScan(db: Db, ids: seq<Id>)
    requires JobsComplete(db.jobs)
    requires forall j :: j in ids ==> j in db.jobs && db.jobs[j].recruiterId in db.recruiters
    ensures forall v :: v in Rows(db, ids) ==> ScanJob(v).Success?
  {
    forall v | v in Rows(db, ids) ensures ScanJob(v).Success? {
      var i :| 0 <= i < |ids| && Rows(db, ids)[i] == v;
      assert ids[i] in ids;
    }
  }

  /**
   In every reachable state the COUNT query counts the rows the joined query lists, and without a filter that is
   the length of all recruiters' lists together. No row of a job listing holds a NULL, so every row scans.
   */
  lemma ListingsAgree(c: Config, actions: seq<Action>, like: Like, f: Filter, r: Id)
    ensures var db := Run(c, actions).db;
      && |Counted(db, like, f)| == |JobList(db, like, f)|
      && |Counted(db, like, NO_FILTER)| == Sum(RecruiterLengths(db))
      && (forall v :: v in Rows(db, JobList(db, like, f)) ==> ScanJob(v).Success?)
      && (forall v :: v in Rows(db, RecruiterList(db, r)) ==> ScanJob(v).Success?)
  {
    TablesInRuns(c, actions);
    var db := Run(c, actions).db;
    CountIsListLength(db, like, f);
    RecruiterListsAddUp(db);
    UnfilteredIsAll(db, like);
    AllRowsScan(db, JobList(db, like, f));
    AllRowsScan(db, RecruiterList(db, r));
  }
}
