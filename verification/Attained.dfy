/**
 The bound of Duplicates is exact: whatever the concurrency, some interleaving leaves that many applications of one
 seeker to one job. So applications are unique per pair in every run if and only if the worker has one slot.
 */
module Attained {
  import opened Wrappers
  import opened Errors
  import opened Schema
  import opened Integrity
  import opened Programs
  import opened Stability
  import opened Protocol
  import opened Duplicates

  /** A seeker with a token, a job he has not applied to, an idle worker, and task ids from `t0` on unused. */
  ghost predicate Ready(c: Config, s: State, token: Token, p: Id, j: Id, t0: nat) {
    && Gate(c, s, token, JobSeeker)
    && SeekerOf(s.db, token.userId) == Some(p) && p in s.db.seekers
    && j in s.db.jobs && s.db.jobs[j].isActive && ApplicationsOf(s.db, j, p) == {}
    && Below(s.db.applications, s.db.nextId)
    && s.slots == map[] && (forall t :: t0 <= t ==> t !in s.enqueued)
  }

  /** Slot `w` holds the delivery of task `t0 + w` past the duplicate check. */
  ghost predicate Poised(s: State, token: Token, p: Id, j: Id, t0: nat, w: nat) {
    && w in s.slots && s.slots[w] == Slot(t0 + w, NoDuplicate(p))
    && t0 + w in s.enqueued && s.enqueued[t0 + w] == ApplyToJob(token.userId, j, "")
  }

  /** The first `n` slots are all past the duplicate check, and nothing else has happened. */
  ghost predicate Filled(c: Config, s0: State, s: State, token: Token, p: Id, j: Id, t0: nat, n: nat) {
    && s.db == s0.db && s.issued == s0.issued
    && (forall w :: w in s.slots ==> w < n)
    && (forall w :: 0 <= w < n ==> Poised(s, token, p, j, t0, w))
    && (forall t :: t0 + n <= t ==> t !in s.enqueued)
  }

  /** A delivery statement that writes nothing moves its slot and nothing else. */
  lemma QuietSlotStep(c: Config, s: State, w: nat, next: Pc)
    requires w in s.slots && !s.slots[w].pc.Finished? && s.slots[w].taskId in s.enqueued
    requires Advance(RequestOf(s.enqueued[s.slots[w].taskId]), s.slots[w].pc, s.db, 0) == (next, s.db)
    requires next.Finished? ==> next.outcome.Failure?
    ensures Step(c, s, RunSlot(w, 0)) == s.(slots := s.slots[w := Slot(s.slots[w].taskId, next)])
  {
    assert NewBirths(s.db, s.db, s.slots[w].taskId, 0) == map[] && NewSaves(s.db, s.db) == map[];
    assert s.past.births + map[] == s.past.births && s.past.kept + map[] == s.past.kept;
    assert s.past.upserts + {} == s.past.upserts;
  }

  /** A request statement that commits no account moves its call, writes the tables and nothing else. */
  lemma CallStep(c: Config, s: State, k: nat, next: Pc, after: Db)
    requires k in s.calls && !s.calls[k].pc.Finished? && !s.calls[k].pc.Authenticated? && !next.Authenticated?
    requires !s.calls[k].request.Review? && Advance(s.calls[k].request, s.calls[k].pc, s.db, 0) == (next, after)
    ensures Step(c, s, RunCall(k, 0)) == s.(db := after, calls := s.calls[k := Call(s.calls[k].request, next)])
  {
  }

  lemma ExecSnoc(c: Config, s: State, xs: seq<Action>, a: Action)
    ensures Exec(c, s, xs + [a]) == Step(c, Exec(c, s, xs), a)
  {
    assert (xs + [a])[..|xs + [a]| - 1] == xs;
  }

  /** Five actions bring one more delivery up to its insert. */
  function Walk(token: Token, j: Id, t: nat, w: nat): seq<Action> {
    [Enqueue(t, ApplyToJob(token.userId, j, ""), token), Deliver(t, w), RunSlot(w, 0), RunSlot(w, 0), RunSlot(w, 0)]
  }

  lemma ExecFive(c: Config, s: State, xs: seq<Action>)
    requires |xs| == 5
    ensures Exec(c, s, xs) == Step(c, Step(c, Step(c, Step(c, Step(c, s, xs[0]), xs[1]), xs[2]), xs[3]), xs[4])
  {
    assert xs[..4][..3] == xs[..3] && xs[..3][..2] == xs[..2] && xs[..2][..1] == xs[..1] && xs[..1][..0] == [];
    assert xs[..5] == xs;
    assert Exec(c, s, xs[..1]) == Step(c, s, xs[0]);
    assert Exec(c, s, xs[..2]) == Step(c, Exec(c, s, xs[..1]), xs[1]);
    assert Exec(c, s, xs[..3]) == Step(c, Exec(c, s, xs[..2]), xs[2]);
    assert Exec(c, s, xs[..4]) == Step(c, Exec(c, s, xs[..3]), xs[3]);
  }

  /** The state after `Walk`. */
  ghost predicate Walked(s: State, after: State, token: Token, p: Id, j: Id, t: nat, w: nat) {
    && after.db == s.db && after.issued == s.issued
    && after.slots == s.slots[w := Slot(t, NoDuplicate(p))]
    && after.enqueued == s.enqueued[t := ApplyToJob(token.userId, j, "")]
    && t in after.tasks && after.tasks[t].state.Active?
  }

  lemma WalkStarts(c: Config, s: State, token: Token, j: Id, t: nat, w: nat)
    requires Gate(c, s, token, JobSeeker) && t !in s.enqueued && w !in s.slots && w < c.concurrency
    ensures var xs := Walk(token, j, t, w); var after := Step(c, Step(c, s, xs[0]), xs[1]);
      && after.db == s.db && after.issued == s.issued
      && after.slots == s.slots[w := Slot(t, Start)]
      && after.enqueued == s.enqueued[t := ApplyToJob(token.userId, j, "")]
      && t in after.tasks && after.tasks[t].state.Active?
  {
  }

  /** Two statements of ApplyToJob find the profile and the job. */
  lemma JobFound(c: Config, s: State, p: Id, j: Id, w: nat, userId: Id, letter: string)
    requires w in s.slots && s.slots[w].pc == Start && s.slots[w].taskId in s.enqueued
    requires s.enqueued[s.slots[w].taskId] == ApplyToJob(userId, j, letter) && SeekerOf(s.db, userId) == Some(p)
    requires j in s.db.jobs && s.db.jobs[j].isActive
    ensures Step(c, Step(c, s, RunSlot(w, 0)), RunSlot(w, 0)) ==
            s.(slots := s.slots[w := Slot(s.slots[w].taskId, Checked(p))])
  {
    QuietSlotStep(c, s, w, Resolved(p));
    var s1 := Step(c, s, RunSlot(w, 0));
    QuietSlotStep(c, s1, w, Checked(p));
    assert s1.slots[w := Slot(s.slots[w].taskId, Checked(p))] == s.slots[w := Slot(s.slots[w].taskId, Checked(p))];
  }

  /** The third answers as the duplicate check says. */
  lemma DuplicateChecked(c: Config, s: State, p: Id, j: Id, w: nat, userId: Id, letter: string)
    requires w in s.slots && s.slots[w].pc == Start && s.slots[w].taskId in s.enqueued
    requires s.enqueued[s.slots[w].taskId] == ApplyToJob(userId, j, letter) && SeekerOf(s.db, userId) == Some(p)
    requires j in s.db.jobs && s.db.jobs[j].isActive
    ensures var run := RunSlot(w, 0);
      var next := if ApplicationsOf(s.db, j, p) == {} then NoDuplicate(p) else Fail(AlreadyApplied);
      Step(c, Step(c, Step(c, s, run), run), run) == s.(slots := s.slots[w := Slot(s.slots[w].taskId, next)])
  {
    JobFound(c, s, p, j, w, userId, letter);
    var s2 := s.(slots := s.slots[w := Slot(s.slots[w].taskId, Checked(p))]);
    var next := if ApplicationsOf(s.db, j, p) == {} then NoDuplicate(p) else Fail(AlreadyApplied);
    QuietSlotStep(c, s2, w, next);
    assert s2.slots[w := Slot(s.slots[w].taskId, next)] == s.slots[w := Slot(s.slots[w].taskId, next)];
  }

  lemma WalkReaches(c: Config, s: State, token: Token, p: Id, j: Id, t: nat, w: nat)
    requires Gate(c, s, token, JobSeeker) && SeekerOf(s.db, token.userId) == Some(p)
    requires j in s.db.jobs && s.db.jobs[j].isActive && ApplicationsOf(s.db, j, p) == {}
    requires t !in s.enqueued && w !in s.slots && w < c.concurrency
    ensures Walked(s, Exec(c, s, Walk(token, j, t, w)), token, p, j, t, w)
  {
    var xs := Walk(token, j, t, w);
    ExecFive(c, s, xs);
    WalkStarts(c, s, token, j, t, w);
    DuplicateChecked(c, Step(c, Step(c, s, xs[0]), xs[1]), p, j, w, token.userId, "");
  }

  lemma FillOne(c: Config, s0: State, s: State, after: State, token: Token, p: Id, j: Id, t0: nat, n: nat)
    requires Filled(c, s0, s, token, p, j, t0, n) && Walked(s, after, token, p, j, t0 + n, n)
    ensures Filled(c, s0, after, token, p, j, t0, n + 1)
  {
    forall w | 0 <= w < n + 1 ensures Poised(after, token, p, j, t0, w) {
      if w < n {
        assert Poised(s, token, p, j, t0, w);
      }
    }
  }

  lemma FillStep(c: Config, s0: State, s: State, token: Token, p: Id, j: Id, t0: nat, n: nat)
    requires Ready(c, s0, token, p, j, t0) && Filled(c, s0, s, token, p, j, t0, n) && n < c.concurrency
    ensures Filled(c, s0, Exec(c, s, Walk(token, j, t0 + n, n)), token, p, j, t0, n + 1)
  {
    assert Gate(c, s, token, JobSeeker) && t0 + n !in s.enqueued && n !in s.slots;
    WalkReaches(c, s, token, p, j, t0 + n, n);
    FillOne(c, s0, s, Exec(c, s, Walk(token, j, t0 + n, n)), token, p, j, t0, n);
  }

  lemma {:induction false} Fill(c: Config, s0: State, token: Token, p: Id, j: Id, t0: nat, n: nat)
    returns (ys: seq<Action>)
    requires Ready(c, s0, token, p, j, t0) && n <= c.concurrency
    ensures Filled(c, s0, Exec(c, s0, ys), token, p, j, t0, n)
  {
    if n == 0 {
      ys := [];
    } else {
      var before := Fill(c, s0, token, p, j, t0, n - 1);
      FillStep(c, s0, Exec(c, s0, before), token, p, j, t0, n - 1);
      ExecAppend(c, s0, before, Walk(token, j, t0 + n - 1, n - 1));
      ys := before + Walk(token, j, t0 + n - 1, n - 1);
    }
  }

  /** The first `k` of `n` racing slots have inserted. */
  ghost predicate Landed(s: State, token: Token, p: Id, j: Id, t0: nat, n: nat, k: nat) {
    && j in s.db.jobs && p in s.db.seekers && Below(s.db.applications, s.db.nextId)
    && |ApplicationsOf(s.db, j, p)| == k
    && (forall w :: k <= w < n ==> Poised(s, token, p, j, t0, w))
  }

  /** A poised slot inserts. */
  lemma InsertStep(c: Config, s: State, token: Token, p: Id, j: Id, t0: nat, w: nat)
    requires Poised(s, token, p, j, t0, w) && j in s.db.jobs && p in s.db.seekers
    requires Below(s.db.applications, s.db.nextId)
    ensures var after := Step(c, s, RunSlot(w, 0));
      && after.db == InsertApplication(s.db, j, p, "", 0).0
      && after.slots == s.slots[w := Slot(t0 + w, Finished(Success(Row(s.db.nextId))))]
      && after.tasks == s.tasks && after.enqueued == s.enqueued
      && s.db.nextId in after.past.births && after.past.births[s.db.nextId].taskId == t0 + w
  {
    assert s.db.nextId in NewBirths(s.db, InsertApplication(s.db, j, p, "", 0).0, t0 + w, 0);
  }

  lemma LandOne(c: Config, s: State, token: Token, p: Id, j: Id, t0: nat, n: nat, k: nat)
    requires Landed(s, token, p, j, t0, n, k) && k < n
    ensures Landed(Step(c, s, RunSlot(k, 0)), token, p, j, t0, n, k + 1)
  {
    var after := Step(c, s, RunSlot(k, 0));
    assert Poised(s, token, p, j, t0, k);
    InsertStep(c, s, token, p, j, t0, k);
    assert ApplicationsOf(after.db, j, p) == ApplicationsOf(s.db, j, p) + {s.db.nextId};
    forall w | k + 1 <= w < n ensures Poised(after, token, p, j, t0, w) {
      assert Poised(s, token, p, j, t0, w);
    }
  }

  lemma LandNext(c: Config, s: State, before: seq<Action>, token: Token, p: Id, j: Id, t0: nat, n: nat, k: nat)
    requires Landed(Exec(c, s, before), token, p, j, t0, n, k) && k < n
    ensures Landed(Exec(c, s, before + [RunSlot(k, 0)]), token, p, j, t0, n, k + 1)
  {
    LandOne(c, Exec(c, s, before), token, p, j, t0, n, k);
    ExecSnoc(c, s, before, RunSlot(k, 0));
  }

  lemma {:induction false} Land(c: Config, s: State, token: Token, p: Id, j: Id, t0: nat, n: nat, k: nat)
    returns (zs: seq<Action>)
    requires Landed(s, token, p, j, t0, n, 0) && k <= n
    ensures Landed(Exec(c, s, zs), token, p, j, t0, n, k)
  {
    if k == 0 {
      zs := [];
    } else {
      var before := Land(c, s, token, p, j, t0, n, k - 1);
      LandNext(c, s, before, token, p, j, t0, n, k - 1);
      zs := before + [RunSlot(k - 1, 0)];
    }
  }

  /** From any ready state, `n` slots put `n` applications of one seeker to one job into the table. */
  lemma RaceFrom(c: Config, xs: seq<Action>, token: Token, p: Id, j: Id, t0: nat, n: nat)
    returns (actions: seq<Action>)
    requires Ready(c, Run(c, xs), token, p, j, t0) && n <= c.concurrency
    ensures |ApplicationsOf(Run(c, actions).db, j, p)| == n
  {
    var s0 := Run(c, xs);
    var ys := Fill(c, s0, token, p, j, t0, n);
    var s := Exec(c, s0, ys);
    assert Landed(s, token, p, j, t0, n, 0);
    var zs := Land(c, s, token, p, j, t0, n, n);
    ExecAppend(c, INITIAL, xs, ys);
    ExecAppend(c, INITIAL, xs + ys, zs);
    actions := xs + ys + zs;
  }

  // ---- A ready state exists ----

  lemma ExecFour(c: Config, s: State, a: Action, b: Action, d: Action, e: Action)
    ensures Exec(c, s, [a, b, d, e]) == Step(c, Step(c, Step(c, Step(c, s, a), b), d), e)
  {
    assert [a, b, d, e] == [a, b, d] + [e] && [a, b, d] == [a, b] + [d] && [a, b] == [a] + [b] && [a] == [] + [a];
    ExecSnoc(c, s, [a, b, d], e);
    ExecSnoc(c, s, [a, b], d);
    ExecSnoc(c, s, [a], b);
    ExecSnoc(c, s, [], a);
  }

  function SignupRun(k: nat, q: Request): (xs: seq<Action>)
    ensures forall i :: 0 <= i < |xs| ==> !xs[i].Recover?
  {
    [Begin(k, q, None), RunCall(k, 0), RunCall(k, 0), Issue(k)]
  }

  /** A new address signs up: its rows are in the tables and its token is issued. */
  lemma SignsUp(c: Config, s: State, k: nat, q: Request)
    requires q.Signup? && q.email != "" && q.password != "" && q.hash.Some? && !EmailTaken(s.db, q.email)
    requires k !in s.calls && ProfilesLinked(s.db.users, s.db.seekers, s.db.recruiters) && Below(s.db.users, s.db.nextId)
    ensures var after := Exec(c, s, SignupRun(k, q));
      && after.db == SignedUp(s.db, q.kind, SignupRow(q.kind, q.name, q.email, q.hash.value, 0))
      && after.slots == s.slots && after.enqueued == s.enqueued && after.calls.Keys == s.calls.Keys + {k}
      && s.issued <= after.issued && Token(s.db.nextId, InitialRoles(q.kind), c.accessSecret) in after.issued
  {
    ExecFour(c, s, Begin(k, q, None), RunCall(k, 0), RunCall(k, 0), Issue(k));
    var s1 := Step(c, s, Begin(k, q, None));
    CallStep(c, s1, k, EmailFree, s.db);
    var s2 := Step(c, s1, RunCall(k, 0));
    SignupEffect(q, EmailFree, s.db, 0);
    var s3 := Step(c, s2, RunCall(k, 0));
    assert s3.calls[k] == Call(q, Authenticated(s.db.nextId, InitialRoles(q.kind)));
  }

  lemma PostingSteps(c: Config, s: State, k: nat, userId: Id, r: Id, form: JobForm)
    requires k in s.calls && s.calls[k] == Call(CreateJob(userId, form), Start)
    requires RecruiterOf(s.db, userId) == Some(r) && r in s.db.recruiters
    ensures var after := Step(c, Step(c, Step(c, s, RunCall(k, 0)), RunCall(k, 0)), RunCall(k, 0));
      after == s.(db := InsertJob(s.db, r, form, 0).0, calls := after.calls)
  {
    CallStep(c, s, k, Resolved(r), s.db);
    var s2, id, db := Step(c, s, RunCall(k, 0)), s.db.nextId, InsertJob(s.db, r, form, 0).0;
    CallStep(c, s2, k, Written(id), db);
    CallStep(c, Step(c, s2, RunCall(k, 0)), k, Finished(FetchJob(db, id)), db);
  }

  /** A recruiter posts a job: it is in the tables, and nothing else has changed. */
  lemma Posts(c: Config, s: State, k: nat, token: Token, r: Id, form: JobForm)
    requires Gate(c, s, token, Recruiter) && RecruiterOf(s.db, token.userId) == Some(r) && r in s.db.recruiters
    requires k !in s.calls
    ensures var q := CreateJob(token.userId, form);
      var after := Exec(c, s, [Begin(k, q, Some(token)), RunCall(k, 0), RunCall(k, 0), RunCall(k, 0)]);
      && after.db == InsertJob(s.db, r, form, 0).0
      && after.slots == s.slots && after.enqueued == s.enqueued && after.issued == s.issued
  {
    var q := CreateJob(token.userId, form);
    ExecFour(c, s, Begin(k, q, Some(token)), RunCall(k, 0), RunCall(k, 0), RunCall(k, 0));
    PostingSteps(c, Step(c, s, Begin(k, q, Some(token))), k, token.userId, r, form);
  }

  lemma OnlyEmail(row: User)
    requires row.email == "s"
    ensures !EmailTaken(SignedUp(EMPTY, SeekerSignup, row), "r")
  {
    assert "s"[0] != "r"[0];
  }

  /** A seeker signs up, then a recruiter. */
  lemma TwoSignups(c: Config) returns (xs: seq<Action>)
    ensures var s := Run(c, xs);
      && s.db.seekers == map[1 := BlankProfile(0)] && s.db.recruiters.Keys == {3} && s.db.recruiters[3].userId == 2
      && s.db.jobs == map[] && s.db.applications == map[] && s.db.nextId == 4
      && s.slots == map[] && s.enqueued == map[] && 2 !in s.calls
      && Token(0, [JobSeeker], c.accessSecret) in s.issued && Token(2, [Recruiter], c.accessSecret) in s.issued
    ensures forall i :: 0 <= i < |xs| ==> !xs[i].Recover?
  {
    var seeker := Signup(SeekerSignup, "s", "s", "pw", Some("h"));
    var recruiter := Signup(RecruiterSignup(Company("c", "", "", "")), "r", "r", "pw", Some("h"));
    var first, second := SignupRun(0, seeker), SignupRun(1, recruiter);
    SignsUp(c, INITIAL, 0, seeker);
    OnlyEmail(SignupRow(SeekerSignup, "s", "s", "h", 0));
    SignsUp(c, Run(c, first), 1, recruiter);
    ExecAppend(c, INITIAL, first, second);
    xs := first + second;
  }

  /** And the recruiter posts a job; no task exists yet. */
  lemma ReadyRun(c: Config, t0: nat) returns (xs: seq<Action>, token: Token, p: Id, j: Id)
    ensures Ready(c, Run(c, xs), token, p, j, t0)
    ensures forall i :: 0 <= i < |xs| ==> !xs[i].Recover?
  {
    var before := TwoSignups(c);
    var s := Run(c, before);
    var form := JobForm("t", "d", "q", "l", "", "");
    var poster := Token(2, [Recruiter], c.accessSecret);
    assert RecruiterOf(s.db, 2) == Some(3);
    var third := [Begin(2, CreateJob(2, form), Some(poster)), RunCall(2, 0), RunCall(2, 0), RunCall(2, 0)];
    Posts(c, s, 2, poster, 3, form);
    ExecAppend(c, INITIAL, before, third);
    token, p, j := Token(0, [JobSeeker], c.accessSecret), 1, 4;
    assert s.db.seekers[1].userId == 0 && SeekerOf(s.db, 0) == Some(1);
    xs := before + third;
  }

  /** Some interleaving reaches the bound. */
  lemma BoundIsReached(c: Config) returns (actions: seq<Action>, j: Id, p: Id)
    ensures |ApplicationsOf(Run(c, actions).db, j, p)| == c.concurrency
  {
    var xs, token, seeker, job := ReadyRun(c, 0);
    p, j := seeker, job;
    actions := RaceFrom(c, xs, token, p, j, 0, c.concurrency);
  }

  ghost predicate AlwaysUnique(c: Config) {
    forall actions: seq<Action>, j: Id, p: Id :: |ApplicationsOf(Run(c, actions).db, j, p)| <= 1
  }

  /** "You have already applied" is reliable in every interleaving exactly when the worker runs one task at a time. */
  lemma UniqueIffOneSlot(c: Config)
    ensures AlwaysUnique(c) <==> c.concurrency <= 1
  {
    if c.concurrency <= 1 {
      forall actions: seq<Action>, j: Id, p: Id ensures |ApplicationsOf(Run(c, actions).db, j, p)| <= 1 {
        DuplicatesBounded(c, actions, j, p);
      }
    } else {
      var actions, j, p := BoundIsReached(c);
      assert |ApplicationsOf(Run(c, actions).db, j, p)| > 1;
    }
  }
}
