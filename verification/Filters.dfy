/**
 Which jobs the public list shows, column by column, and in what order every list is shown (internal/services/job.go,
 jobseeker.go, recruiter.go).
 */
module Filters {
  import opened Wrappers
  import opened Errors
  import opened Schema
  import opened Integrity
  import opened Listing

  // ---- The three filters of GET /api/jobs/all ----

  /** With no filter the list is every active job. */
  lemma Unfiltered(db: Db, like: Like, j: Id)
    requires JobsOwned(db.jobs, db.recruiters)
    ensures j in JobList(db, like, Filter("", "", "")) <==> j in db.jobs && db.jobs[j].isActive
  {
  }

  /** A search text keeps the active jobs that hold it in title, description or requirements. */
  lemma Searched(db: Db, like: Like, text: string, j: Id)
    requires JobsOwned(db.jobs, db.recruiters) && text != ""
    ensures j in JobList(db, like, Filter(text, "", "")) <==>
      j in db.jobs && db.jobs[j].isActive
      && (like(db.jobs[j].title, text) || like(db.jobs[j].description, text) || like(db.jobs[j].requirements, text))
  {
  }

  /** A category keeps the active jobs of exactly that category. */
  lemma Categorised(db: Db, like: Like, category: string, j: Id)
    requires JobsOwned(db.jobs, db.recruiters) && category != ""
    ensures j in JobList(db, like, Filter("", category, "")) <==>
      j in db.jobs && db.jobs[j].isActive && db.jobs[j].category == Some(category)
  {
  }

  /** A location keeps the active jobs whose location holds it. */
  lemma Located(db: Db, like: Like, location: string, j: Id)
    requires JobsOwned(db.jobs, db.recruiters) && location != ""
    ensures j in JobList(db, like, Filter("", "", location)) <==>
      j in db.jobs && db.jobs[j].isActive && like(db.jobs[j].location, location)
  {
  }

  /** The list for three fields holds exactly the jobs common to the three one-field lists, and COUNT counts them. */
  lemma FiltersIntersect(db: Db, like: Like, f: Filter, j: Id)
    requires ContentSound(db)
    ensures j in JobList(db, like, f) <==>
      && j in JobList(db, like, Filter(f.search, "", ""))
      && j in JobList(db, like, Filter("", f.category, ""))
      && j in JobList(db, like, Filter("", "", f.location))
    ensures j in Counted(db, like, f) <==> j in JobList(db, like, f)
  {
    CountIsListLength(db, like, f);
  }

  /** A recruiter's own list is the recruiter's jobs, active or not. */
  lemma RecruiterListed(db: Db, r: Id, j: Id)
    requires JobsOwned(db.jobs, db.recruiters)
    ensures j in RecruiterList(db, r) <==> j in db.jobs && db.jobs[j].recruiterId == r
  {
  }

  // ---- Newest first ----

  lemma JobsNewestFirst(db: Db, like: Like, f: Filter, i: nat, k: nat)
    requires i < k < |JobList(db, like, f)|
    ensures var a, b := JobList(db, like, f)[i], JobList(db, like, f)[k];
      a in db.jobs && b in db.jobs && a != b && db.jobs[a].createdAt >= db.jobs[b].createdAt
  {
    var list := JobList(db, like, f);
    assert list[i] in list && list[k] in list;
    assert Before(PostedAt(db), list[i], list[k]);
  }

  lemma PostedNewestFirst(db: Db, r: Id, i: nat, k: nat)
    requires i < k < |RecruiterList(db, r)|
    ensures var a, b := RecruiterList(db, r)[i], RecruiterList(db, r)[k];
      a in db.jobs && b in db.jobs && a != b && db.jobs[a].createdAt >= db.jobs[b].createdAt
  {
    var list := RecruiterList(db, r);
    assert list[i] in list && list[k] in list;
    assert Before(PostedAt(db), list[i], list[k]);
  }

  lemma ApplicationsNewestFirst(db: Db, s: Id, i: nat, k: nat)
    requires i < k < |SeekerList(db, s)|
    ensures var a, b := SeekerList(db, s)[i], SeekerList(db, s)[k];
      a.id != b.id && a.row.createdAt >= b.row.createdAt
  {
    var ids := Ordered(SeekerIds(db, s), AppliedAt(db));
    assert ids[i] in ids && ids[k] in ids;
    assert Before(AppliedAt(db), ids[i], ids[k]);
  }

  lemma ApplicantsNewestFirst(db: Db, j: Id, i: nat, k: nat)
    requires i < k < |ApplicantList(db, j)|
    ensures var a, b := ApplicantList(db, j)[i], ApplicantList(db, j)[k];
      a.id != b.id && a.row.createdAt >= b.row.createdAt
  {
    var ids := Ordered(ApplicantIds(db, j), AppliedAt(db));
    assert ids[i] in ids && ids[k] in ids;
    assert Before(AppliedAt(db), ids[i], ids[k]);
  }

  // ---- The columns shown ----

  /** A row of GetApplications: the application, its job's columns (a NULL as "") and the company that posted it. */
  lemma SummaryColumns(db: Db, s: Id, i: nat)
    requires i < |SeekerList(db, s)|
    ensures var v := SeekerList(db, s)[i];
      && v.id in db.applications && v.row == db.applications[v.id] && v.row.seekerId == s
      && v.jobId == v.row.jobId && v.jobId in db.jobs && db.jobs[v.jobId].recruiterId in db.recruiters
      && v.title == db.jobs[v.jobId].title && v.location == db.jobs[v.jobId].location
      && v.salaryRange == (if db.jobs[v.jobId].salaryRange.Some? then db.jobs[v.jobId].salaryRange.value else "")
      && v.category == (if db.jobs[v.jobId].category.Some? then db.jobs[v.jobId].category.value else "")
      && v.companyName == db.recruiters[db.jobs[v.jobId].recruiterId].company.name
  {
    var ids := Ordered(SeekerIds(db, s), AppliedAt(db));
    assert ids[i] in ids;
  }

  /** A row of GetApplicationsForJob: the application, its user's name and email and its profile's columns. */
  lemma ApplicantColumns(db: Db, j: Id, i: nat)
    requires i < |ApplicantList(db, j)|
    ensures var v := ApplicantList(db, j)[i];
      && v.id in db.applications && v.row == db.applications[v.id] && v.row.jobId == j
      && v.row.seekerId in db.seekers && db.seekers[v.row.seekerId].userId in db.users
      && v.name == db.users[db.seekers[v.row.seekerId].userId].name
      && v.email == db.users[db.seekers[v.row.seekerId].userId].email
      && v.resumeUrl == (if db.seekers[v.row.seekerId].resumeUrl.Some? then db.seekers[v.row.seekerId].resumeUrl.value else "")
      && v.bio == (if db.seekers[v.row.seekerId].bio.Some? then db.seekers[v.row.seekerId].bio.value else "")
      && v.skills == db.seekers[v.row.seekerId].skills
  {
    var ids := Ordered(ApplicantIds(db, j), AppliedAt(db));
    assert ids[i] in ids;
  }

  /** A row of a job list as the client sees it: every column of the job, and the company that posted it. */
  lemma JobColumns(db: Db, ids: seq<Id>, i: nat)
    requires forall j :: j in ids ==> j in db.jobs && db.jobs[j].recruiterId in db.recruiters
    requires i < |ids|
    ensures var shown := ScanJob(Rows(db, ids)[i]); var job := db.jobs[ids[i]];
      if job.salaryRange.None? || job.category.None? then shown == Failure(Driver(NullIntoString))
      else
        && shown.Success?
        && shown.value.id == ids[i] && shown.value.recruiterId == job.recruiterId
        && shown.value.title == job.title && shown.value.description == job.description
        && shown.value.requirements == job.requirements && shown.value.location == job.location
        && Some(shown.value.salaryRange) == job.salaryRange && Some(shown.value.category) == job.category
        && shown.value.isActive == job.isActive && shown.value.createdAt == job.createdAt
        && shown.value.updatedAt == job.updatedAt
        && shown.value.companyName == db.recruiters[job.recruiterId].company.name
  {
    assert ids[i] in ids;
  }
}
