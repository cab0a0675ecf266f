/**
 The job list of GET /api/jobs/all (internal/services/job.go): filter, order, page. ILIKE is a parameter; rows with
 the same created_at are ordered by id.
 */
module Listing {
  import opened Wrappers
  import opened Errors
  import opened Schema
  import opened Integrity
  import opened Programs

  // ---- ORDER BY created_at DESC ----

  predicate Before(at: map<Id, Time>, a: Id, b: Id)
    requires a in at && b in at
  {
    at[a] > at[b] || (at[a] == at[b] && a < b)
  }

  predicate InOrder(s: seq<Id>, at: map<Id, Time>)
    requires forall x :: x in s ==> x in at
  {
    forall i, j :: 0 <= i < j < |s| ==> Before(at, s[i], s[j])
  }

  ghost predicate Foremost(f: Id, ids: set<Id>, at: map<Id, Time>)
    requires ids <= at.Keys
  {
    f in ids && forall x :: x in ids && x != f ==> Before(at, f, x)
  }

  lemma {:induction false} ForemostExists(ids: set<Id>, at: map<Id, Time>)
    requires ids != {} && ids <= at.Keys
    ensures exists f :: Foremost(f, ids, at)
  {
    var x :| x in ids;
    if ids - {x} == {} {
      assert forall z :: z in ids && z != x ==> z in ids - {x};
      assert Foremost(x, ids, at);
    } else {
      ForemostExists(ids - {x}, at);
      var y :| Foremost(y, ids - {x}, at);
      assert forall z :: z in ids ==> z == x || z in ids - {x};
      assert Foremost(if Before(at, x, y) then x else y, ids, at);
    }
  }

  function First(ids: set<Id>, at: map<Id, Time>): (f: Id)
    requires ids != {} && ids <= at.Keys
    ensures f in ids
    ensures forall x :: x in ids && x != f ==> Before(at, f, x)
  {
    ForemostExists(ids, at);
    assert exists f :: f in ids && forall x :: x in ids && x != f ==> Before(at, f, x) by {
      var f :| Foremost(f, ids, at);
    }
    var f :| f in ids && forall x :: x in ids && x != f ==> Before(at, f, x);
    f
  }

  /** The ids, newest row first. */
  function Ordered(ids: set<Id>, at: map<Id, Time>): (s: seq<Id>)
    requires ids <= at.Keys
    ensures |s| == |ids|
    ensures forall x :: x in s <==> x in ids
    ensures InOrder(s, at)
  {
    if ids == {} then []
    else
      var f := First(ids, at);
      [f] + Ordered(ids - {f}, at)
  }

  lemma OrderedStep(ids: set<Id>, at: map<Id, Time>)
    requires ids != {} && ids <= at.Keys
    ensures var f := First(ids, at); Ordered(ids, at) == [f] + Ordered(ids - {f}, at)
  {
  }

  lemma HeadIsFirst(ids: set<Id>, at: map<Id, Time>, s: seq<Id>)
    requires ids != {} && ids <= at.Keys && (forall x :: x in s <==> x in ids) && InOrder(s, at)
    ensures s != [] && s[0] == First(ids, at)
  {
    var f := First(ids, at);
    assert f in s;
    var i :| 0 <= i < |s| && s[i] == f;
    assert s[0] in ids;
  }

  lemma TailIds(ids: set<Id>, at: map<Id, Time>, s: seq<Id>)
    requires s != [] && ids <= at.Keys && (forall y :: y in s <==> y in ids) && InOrder(s, at)
    ensures forall x :: x in s[1..] <==> x in ids - {s[0]}
    ensures s[0] in ids && InOrder(s[1..], at)
  {
    assert s[0] in s;
    forall x ensures x in s[1..] <==> x in ids - {s[0]} {
      if x in s[1..] {
        var k :| 0 <= k < |s[1..]| && s[1..][k] == x;
        assert Before(at, s[0], s[k + 1]);
      }
      if x in ids - {s[0]} {
        var k :| 0 <= k < |s| && s[k] == x;
        assert s[1..][k - 1] == x;
      }
    }
  }

  /** The order leaves no choice: any list of the same ids in this order is the same list. */
  lemma {:induction false} OrderedUnique(ids: set<Id>, at: map<Id, Time>, s: seq<Id>)
    requires ids <= at.Keys && (forall x :: x in s <==> x in ids) && InOrder(s, at)
    ensures s == Ordered(ids, at)
  {
    if s == [] {
      assert ids == {};
    } else {
      TailIds(ids, at, s);
      HeadIsFirst(ids, at, s);
      OrderedUnique(ids - {s[0]}, at, s[1..]);
      OrderedStep(ids, at);
    }
  }

  // ---- The filter ----

  datatype Filter = Filter(search: string, category: string, location: string)

  const NO_FILTER := Filter("", "", "")

  /** `like(column, text)` is column ILIKE '%text%'. */
  type Like = (string, string) -> bool

  predicate Matches(like: Like, job: Job, f: Filter) {
    && job.isActive
    && (f.search == "" || like(job.title, f.search) || like(job.description, f.search) || like(job.requirements, f.search))
    && (f.category == "" || job.category == Some(f.category))
    && (f.location == "" || like(job.location, f.location))
  }

  /** The rows the COUNT query counts. */
  function Counted(db: Db, like: Like, f: Filter): set<Id> {
    set j | j in db.jobs && Matches(like, db.jobs[j], f)
  }

  /** The rows of the listing query, which joins recruiter_profiles. */
  function Joined(db: Db, like: Like, f: Filter): set<Id> {
    set j | j in db.jobs && db.jobs[j].recruiterId in db.recruiters && Matches(like, db.jobs[j], f)
  }

  function PostedAt(db: Db): map<Id, Time> {
    map j | j in db.jobs :: db.jobs[j].createdAt
  }

  /** The whole filtered, ordered list. */
  function JobList(db: Db, like: Like, f: Filter): seq<Id> {
    Ordered(Joined(db, like, f), PostedAt(db))
  }

  /** GetJobsByRecruiter, which has no activity filter. */
  function PostedBy(db: Db, recruiterId: Id): set<Id> {
    set j | j in db.jobs && db.jobs[j].recruiterId in db.recruiters && db.jobs[j].recruiterId == recruiterId
  }

  function RecruiterList(db: Db, recruiterId: Id): seq<Id> {
    Ordered(PostedBy(db, recruiterId), PostedAt(db))
  }

  /** The separate COUNT query agrees with the joined list: the join drops nothing. */
  lemma CountIsListLength(db: Db, like: Like, f: Filter)
    requires ContentSound(db)
    ensures |Counted(db, like, f)| == |JobList(db, like, f)|
    ensures forall j :: j in JobList(db, like, f) <==> j in db.jobs && Matches(like, db.jobs[j], f)
  {
    assert Counted(db, like, f) == Joined(db, like, f);
  }

  // ---- Applications, as the seeker and as the job's recruiter list them ----

  /** A row of GetApplications: the application and a summary of its job. */
  datatype SummaryView = SummaryView(id: Id, row: Application, jobId: Id, title: string, location: string,
                                     salaryRange: string, category: string, companyName: string)

  function AppliedAt(db: Db): map<Id, Time> {
    map a | a in db.applications :: db.applications[a].createdAt
  }

  /** What the join of GetApplications selects for a seeker. */
  function SeekerIds(db: Db, s: Id): set<Id> {
    set a | a in db.applications && db.applications[a].jobId in db.jobs
            && db.jobs[db.applications[a].jobId].recruiterId in db.recruiters && db.applications[a].seekerId == s
  }

  /** What the join of GetApplicationsForJob selects for a job. */
  function ApplicantIds(db: Db, j: Id): set<Id> {
    set a | a in db.applications && HasApplicant(db, a) && db.applications[a].jobId == j
  }

  function Summary(db: Db, s: Id, a: Id): SummaryView
    requires a in SeekerIds(db, s)
  {
    var row := db.applications[a];
    var job := db.jobs[row.jobId];
    SummaryView(a, row, row.jobId, job.title, job.location, job.salaryRange.GetOr(""), job.category.GetOr(""),
                db.recruiters[job.recruiterId].company.name)
  }

  function SeekerList(db: Db, s: Id): seq<SummaryView> {
    var ids := Ordered(SeekerIds(db, s), AppliedAt(db));
    seq(|ids|, i requires 0 <= i < |ids| => assert ids[i] in ids; Summary(db, s, ids[i]))
  }

  function ApplicantList(db: Db, j: Id): seq<ApplicantView> {
    var ids := Ordered(ApplicantIds(db, j), AppliedAt(db));
    seq(|ids|, i requires 0 <= i < |ids| => assert ids[i] in ids; ViewApplicant(db, ids[i]))
  }

  // ---- LIMIT and OFFSET ----

  function Slice<T>(s: seq<T>, limit: nat, offset: nat): seq<T> {
    if offset >= |s| then [] else if offset + limit >= |s| then s[offset..] else s[offset..offset + limit]
  }

  function Page<T>(s: seq<T>, page: nat, size: nat): seq<T>
    requires 1 <= page
  {
    Slice(s, size, (page - 1) * size)
  }

  /** Pages 1 to n, one after the other. */
  function Pages<T>(s: seq<T>, size: nat, n: nat): seq<T> {
    if n == 0 then [] else Pages(s, size, n - 1) + Page(s, n, size)
  }

  function CeilDiv(total: nat, size: nat): nat
    requires 0 < size
  {
    (total + size - 1) / size
  }

  lemma {:induction false} PagesArePrefix<T>(s: seq<T>, size: nat, n: nat)
    ensures Pages(s, size, n) == if n * size <= |s| then s[..n * size] else s
  {
    if n > 0 {
      PagesArePrefix(s, size, n - 1);
      assert n * size == (n - 1) * size + size;
    }
  }

  lemma MulMonotone(a: int, b: int, size: nat)
    requires a <= b
    ensures a * size <= b * size
  {
  }

  lemma CeilBounds(total: nat, size: nat)
    requires 0 < size
    ensures CeilDiv(total, size) * size >= total
    ensures (CeilDiv(total, size) - 1) * size < total || total == 0 == CeilDiv(total, size)
  {
    var n := CeilDiv(total, size);
    assert total + size - 1 == size * n + (total + size - 1) % size;
    assert (n - 1) * size == n * size - size;
    if total == 0 {
      assert n == 0;
    }
  }

  /** Where a page starts decides whether it is empty. */
  lemma PageEmptyIff(total: nat, size: nat, page: nat)
    requires 0 < size && 1 <= page
    ensures page > CeilDiv(total, size) <==> (page - 1) * size >= total
  {
    var n := CeilDiv(total, size);
    CeilBounds(total, size);
    if page > n {
      MulMonotone(n, page - 1, size);
    } else {
      MulMonotone(page - 1, n - 1, size);
    }
  }

  /** Pages tile the list: 1 to TotalPages joined is the list. */
  lemma PagesTile<T>(s: seq<T>, size: nat)
    requires 0 < size
    ensures Pages(s, size, CeilDiv(|s|, size)) == s
  {
    CeilBounds(|s|, size);
    PagesArePrefix(s, size, CeilDiv(|s|, size));
  }

  /** Every later page is empty, and none of these is. */
  lemma LaterPagesEmpty<T>(s: seq<T>, size: nat, page: nat)
    requires 0 < size && 1 <= page
    ensures Page(s, page, size) == [] <==> page > CeilDiv(|s|, size)
  {
    PageEmptyIff(|s|, size, page);
  }

  /** Position i lies on page p exactly when p is i / size + 1. */
  lemma PageOfPosition(i: nat, size: nat, page: nat)
    requires 0 < size && 1 <= page
    ensures (page - 1) * size <= i < (page - 1) * size + size <==> page == i / size + 1
  {
    var q := i / size;
    assert i == size * q + i % size;
    if page - 1 < q {
      MulMonotone(page, q, size);
      assert page * size == (page - 1) * size + size;
    } else if page - 1 > q {
      MulMonotone(q + 1, page - 1, size);
      assert (q + 1) * size == q * size + size;
    }
  }

  lemma InSliceIff<T>(s: seq<T>, limit: nat, offset: nat, i: nat)
    requires i < |s| && (forall j, k :: 0 <= j < k < |s| ==> s[j] != s[k])
    ensures s[i] in Slice(s, limit, offset) <==> offset <= i < offset + limit
  {
    var page := Slice(s, limit, offset);
    if offset <= i < offset + limit {
      assert page[i - offset] == s[i];
    }
    if s[i] in page {
      var k :| 0 <= k < |page| && page[k] == s[i];
      assert s[offset + k] == s[i];
    }
  }

  /** Each listed row is on exactly one page: the one its position says. */
  lemma OnOnePage<T>(s: seq<T>, size: nat, i: nat, page: nat)
    requires 0 < size && i < |s| && 1 <= page
    requires forall j, k :: 0 <= j < k < |s| ==> s[j] != s[k]
    ensures s[i] in Page(s, page, size) <==> page == i / size + 1
  {
    PageOfPosition(i, size, page);
    InSliceIff(s, size, (page - 1) * size, i);
  }

  // ---- The row loop ----

  /** A job as the API returns it (models.JobRow). */
  datatype JobRow = JobRow(id: Id, recruiterId: Id, title: string, description: string, requirements: string,
                           location: string, salaryRange: string, category: string, isActive: bool,
                           companyName: string, createdAt: Time, updatedAt: Time)

  /** scanJob on one row of a result set. */
  function ScanJob(v: JobView): Result<JobRow, Error> {
    if !Scannable(v.job) then Failure(Driver(NullIntoString))
    else
      var j := v.job;
      Success(JobRow(v.id, j.recruiterId, j.title, j.description, j.requirements, j.location,
                     j.salaryRange.value, j.category.value, j.isActive, v.companyName, j.createdAt, j.updatedAt))
  }

  /** The loop every job listing runs over its result set. */
  method ScanJobs(rows: seq<JobView>) returns (r: Result<seq<JobRow>, Error>)
    ensures if forall v :: v in rows ==> Scannable(v.job) then r.Success? else r == Failure(Driver(NullIntoString))
    ensures r.Success? ==> |r.value| == |rows| && forall i :: 0 <= i < |rows| ==> ScanJob(rows[i]) == Success(r.value[i])
  {
    var jobs: seq<JobRow> := [];
    var next := 0;
    while next < |rows|
      invariant 0 <= next <= |rows| && |jobs| == next
      invariant forall i :: 0 <= i < next ==> ScanJob(rows[i]) == Success(jobs[i])
    {
      var j := ScanJob(rows[next]);
      if j.Failure? {
        assert !Scannable(rows[next].job);
        return Failure(j.error);
      }
      jobs := jobs + [j.value];
      next := next + 1;
    }
    r := Success(jobs);
  }

  /** The result set of a listing query: the rows with these ids, joined with the company name. */
  function Rows(db: Db, ids: seq<Id>): seq<JobView>
    requires forall j :: j in ids ==> j in db.jobs && db.jobs[j].recruiterId in db.recruiters
  {
    seq(|ids|, i requires 0 <= i < |ids| =>
      JobView(ids[i], db.jobs[ids[i]], db.recruiters[db.jobs[ids[i]].recruiterId].company.name))
  }
}
