/** SaveJob under at-least-once delivery: the unique key and the upsert make it idempotent. */
module SavedJobs {
  import opened Wrappers
  import opened Schema
  import opened Integrity
  import opened Programs
  import opened Protocol
  import opened Safety
  import opened Attained

  lemma PairsInRuns(c: Config, actions: seq<Action>)
    ensures PairsUnique(Run(c, actions).db.saved) && Below(Run(c, actions).db.saved, Run(c, actions).db.nextId)
  {
    TablesInRuns(c, actions);
  }

  /** In every state a (job, seeker) pair is saved at most once. */
  lemma PairSavedOnce(c: Config, actions: seq<Action>, r: Id, t: Id)
    requires r in Run(c, actions).db.saved && t in Run(c, actions).db.saved
    requires var saved := Run(c, actions).db.saved;
      saved[r].jobId == saved[t].jobId && saved[r].seekerId == saved[t].seekerId
    ensures r == t
  {
    PairsInRuns(c, actions);
  }

  /** The two statements that remove a saved row: UnsaveJob of the pair, and DeleteJob of the job. */
  predicate Removes(s: State, a: Action, j: Id, p: Id) {
    a.RunCall? && a.call in s.calls
    && var Call(q, pc) := s.calls[a.call];
       (q.Unsave? && q.jobId == j && pc == Resolved(p)) || (q.RemoveJob? && q.jobId == j && pc.Checked?)
  }

  lemma AdvanceKeepsSaved(q: Request, pc: Pc, db: Db, now: Time, r: Id)
    requires r in db.saved && r < db.nextId
    requires !(q.Unsave? && q.jobId == db.saved[r].jobId && pc == Resolved(db.saved[r].seekerId))
    requires !(q.RemoveJob? && q.jobId == db.saved[r].jobId && pc.Checked?)
    ensures var after := Advance(q, pc, db, now).1; r in after.saved && after.saved[r] == db.saved[r]
  {
  }

  lemma StepKeepsSaved(c: Config, s: State, a: Action, r: Id)
    requires r in s.db.saved && r < s.db.nextId && !Removes(s, a, s.db.saved[r].jobId, s.db.saved[r].seekerId)
    ensures var after := Step(c, s, a).db; r in after.saved && after.saved[r] == s.db.saved[r]
  {
    if Enabled(c, s, a) {
      TablesAfter(c, s, a);
      if a.RunCall? {
        AdvanceKeepsSaved(s.calls[a.call].request, s.calls[a.call].pc, s.db, a.now, r);
      } else if a.RunSlot? {
        AdvanceKeepsSaved(RequestOf(s.enqueued[s.slots[a.slot].taskId]), s.slots[a.slot].pc, s.db, a.now, r);
      }
    }
  }

  /** No action along `ys`, started in `s`, unsaves the pair or deletes the job. */
  ghost predicate Undisturbed(c: Config, s: State, ys: seq<Action>, j: Id, p: Id) {
    forall i :: 0 <= i < |ys| ==> !Removes(Exec(c, s, ys[..i]), ys[i], j, p)
  }

  /**
   However many deliveries, concurrent or repeated, crashes and other requests follow, a saved row stays the only
   one of its pair with its id and saved_at, as long as nobody unsaves the pair or deletes the job.
   */
  lemma {:induction false} SavedRowSurvives(c: Config, xs: seq<Action>, ys: seq<Action>, r: Id)
    requires r in Run(c, xs).db.saved
    requires var row := Run(c, xs).db.saved[r]; Undisturbed(c, Run(c, xs), ys, row.jobId, row.seekerId)
    ensures var row, db := Run(c, xs).db.saved[r], Run(c, xs + ys).db;
      && r in db.saved && db.saved[r] == row
      && SavedOf(db, row.jobId, row.seekerId) == {r}
  {
    ExecAppend(c, INITIAL, xs, ys);
    RowStays(c, Run(c, xs), xs, ys, r);
    PairsInRuns(c, xs + ys);
  }

  lemma {:induction false} RowStays(c: Config, s: State, xs: seq<Action>, ys: seq<Action>, r: Id)
    requires s == Run(c, xs) && r in s.db.saved && Undisturbed(c, s, ys, s.db.saved[r].jobId, s.db.saved[r].seekerId)
    ensures var db := Exec(c, s, ys).db; r in db.saved && db.saved[r] == s.db.saved[r]
  {
    if ys != [] {
      var n := |ys| - 1;
      forall i | 0 <= i < n
        ensures !Removes(Exec(c, s, ys[..n][..i]), ys[..n][i], s.db.saved[r].jobId, s.db.saved[r].seekerId)
      {
        assert ys[..n][..i] == ys[..i];
      }
      RowStays(c, s, xs, ys[..n], r);
      ExecAppend(c, INITIAL, xs, ys[..n]);
      PairsInRuns(c, xs + ys[..n]);
      StepKeepsSaved(c, Exec(c, s, ys[..n]), ys[n], r);
    }
  }

  /** A delivery that reaches its upsert while the pair is saved returns that row's id and writes nothing. */
  lemma RepeatedSaveReturnsRow(c: Config, actions: seq<Action>, w: nat, now: Time, r: Id)
    requires var s := Run(c, actions);
      && w in s.slots && s.slots[w].pc.Checked? && s.slots[w].taskId in s.enqueued
      && s.enqueued[s.slots[w].taskId].SaveJob?
      && r in SavedOf(s.db, s.enqueued[s.slots[w].taskId].jobId, s.slots[w].pc.profileId)
    ensures var s := Run(c, actions); var after := Step(c, s, RunSlot(w, now));
      after.db == s.db && after.slots[w].pc == Finished(Success(Row(r)))
  {
    PairsInRuns(c, actions);
    var s := Run(c, actions);
    UpsertReturnsHeld(s.db, s.enqueued[s.slots[w].taskId].jobId, s.slots[w].pc.profileId, now, r);
  }

  /** The upsert of a pair whose job and profile exist: its one row, new if it had none. */
  lemma UpsertSucceeds(db: Db, j: Id, p: Id, now: Time) returns (r: Id)
    requires PairsUnique(db.saved) && Below(db.saved, db.nextId) && j in db.jobs && p in db.seekers
    ensures var after := UpsertSaved(db, j, p, now).0;
      && UpsertSaved(db, j, p, now).1 == Success(r)
      && SavedOf(after, j, p) == {r} && after.saved[r].jobId == j && after.saved[r].seekerId == p
      && (r in db.saved ==> after == db)
      && (r !in db.saved ==> after.saved == db.saved[r := SavedJob(j, p, now)]
                             && after.(saved := db.saved, nextId := db.nextId) == db)
  {
    if x :| x in SavedOf(db, j, p) {
      UpsertReturnsHeld(db, j, p, now, x);
      r := x;
      assert forall t :: t in SavedOf(db, j, p) ==> t == x;
    } else {
      r := db.nextId;
      assert SavedOf(db, j, p) == {};
      assert forall t :: t in db.saved ==> t !in SavedOf(db, j, p);
    }
  }

  /**
   In every run a delivery of a save whose job is still there when it reaches its upsert succeeds: it returns the only
   row of the pair, of the payload's job and user; a row it had to insert is saved now, and nothing else is written.
   */
  lemma SaveSucceeds(c: Config, actions: seq<Action>, w: nat, now: Time) returns (r: Id)
    requires var s := Run(c, actions);
      && w in s.slots && s.slots[w].pc.Checked? && s.slots[w].taskId in s.enqueued
      && s.enqueued[s.slots[w].taskId].SaveJob? && s.enqueued[s.slots[w].taskId].jobId in s.db.jobs
    ensures var s := Run(c, actions); var after := Step(c, s, RunSlot(w, now));
      var payload, p := s.enqueued[s.slots[w].taskId], s.slots[w].pc.profileId;
      && w in after.slots && after.slots[w].pc == Finished(Success(Row(r)))
      && IsSeeker(s.db, payload.userId, p)
      && SavedOf(after.db, payload.jobId, p) == {r}
      && (r in s.db.saved ==> after.db == s.db)
      && (r !in s.db.saved ==> after.db.saved == s.db.saved[r := SavedJob(payload.jobId, p, now)]
                               && after.db.(saved := s.db.saved, nextId := s.db.nextId) == s.db)
  {
    TablesInRuns(c, actions);
    var s := Run(c, actions);
    CheckedSave(c, actions, w);
    SlotStep(c, s, w, now);
    SaveUpserts(s.enqueued[s.slots[w].taskId].userId, s.enqueued[s.slots[w].taskId].jobId,
                s.slots[w].pc.profileId, s.db, now);
    r := UpsertSucceeds(s.db, s.enqueued[s.slots[w].taskId].jobId, s.slots[w].pc.profileId, now);
  }

  lemma CheckedSave(c: Config, actions: seq<Action>, w: nat)
    requires var s := Run(c, actions);
      w in s.slots && s.slots[w].pc.Checked? && s.slots[w].taskId in s.enqueued && s.enqueued[s.slots[w].taskId].SaveJob?
    ensures var s := Run(c, actions);
      IsSeeker(s.db, s.enqueued[s.slots[w].taskId].userId, s.slots[w].pc.profileId)
  {
    SlotsInRuns(c, actions);
    assert SlotOk(Run(c, actions).db, Run(c, actions).enqueued, Run(c, actions).slots[w]);
  }

  lemma SaveUpserts(u: Id, j: Id, p: Id, db: Db, now: Time)
    ensures var (after, r) := UpsertSaved(db, j, p, now);
      Advance(Save(u, j), Checked(p), db, now) == (Finished(if r.Success? then Success(Row(r.value)) else Failure(r.error)), after)
  {
  }

  // ---- Some run saves a job ----

  function SaveWalk(token: Token, j: Id, t: nat): seq<Action> {
    [Enqueue(t, Payload.SaveJob(token.userId, j), token), Deliver(t, 0), RunSlot(0, 0), RunSlot(0, 0)]
  }

  lemma SaveStarts(c: Config, s: State, token: Token, j: Id, t: nat)
    requires Gate(c, s, token, JobSeeker) && t !in s.enqueued && s.slots == map[] && 0 < c.concurrency
    ensures var xs := SaveWalk(token, j, t); var after := Step(c, Step(c, s, xs[0]), xs[1]);
      && after.db == s.db && after.slots == map[0 := Slot(t, Start)]
      && t in after.enqueued && after.enqueued[t] == Payload.SaveJob(token.userId, j)
  {
  }

  lemma SaveChecks(c: Config, s: State, p: Id, j: Id, t: nat, userId: Id)
    requires s.slots == map[0 := Slot(t, Start)] && t in s.enqueued && s.enqueued[t] == Payload.SaveJob(userId, j)
    requires SeekerOf(s.db, userId) == Some(p) && j in s.db.jobs
    ensures Step(c, Step(c, s, RunSlot(0, 0)), RunSlot(0, 0)) == s.(slots := map[0 := Slot(t, Checked(p))])
  {
    QuietSlotStep(c, s, 0, Resolved(p));
    var s1 := Step(c, s, RunSlot(0, 0));
    assert s1.slots == map[0 := Slot(t, Resolved(p))];
    QuietSlotStep(c, s1, 0, Checked(p));
    assert s1.slots[0 := Slot(t, Checked(p))] == map[0 := Slot(t, Checked(p))];
  }

  /** Four actions bring a save up to its upsert. */
  lemma SaveWalks(c: Config, s: State, token: Token, p: Id, j: Id, t: nat)
    requires Ready(c, s, token, p, j, t) && 0 < c.concurrency
    ensures var after := Exec(c, s, SaveWalk(token, j, t));
      && after.db == s.db && 0 in after.slots && after.slots[0] == Slot(t, Checked(p))
      && t in after.enqueued && after.enqueued[t] == Payload.SaveJob(token.userId, j)
  {
    var xs := SaveWalk(token, j, t);
    ExecFour(c, s, xs[0], xs[1], xs[2], xs[3]);
    SaveStarts(c, s, token, j, t);
    SaveChecks(c, Step(c, Step(c, s, xs[0]), xs[1]), p, j, t, token.userId);
  }

  /** A worker with a slot can save a job: some run ends with the saved row in the table. */
  lemma SomeRunSaves(c: Config) returns (actions: seq<Action>, r: Id)
    requires 0 < c.concurrency
    ensures r in Run(c, actions).db.saved
  {
    var xs, token, p, j := ReadyRun(c, 0);
    var walk := SaveWalk(token, j, 0);
    SaveWalks(c, Run(c, xs), token, p, j, 0);
    ExecAppend(c, INITIAL, xs, walk);
    r := SaveSucceeds(c, xs + walk, 0, 0);
    ExecSnoc(c, INITIAL, xs + walk, RunSlot(0, 0));
    actions := xs + walk + [RunSlot(0, 0)];
    assert r in SavedOf(Run(c, actions).db, j, p);
  }

  lemma UpsertReturnsHeld(db: Db, j: Id, p: Id, now: Time, r: Id)
    requires PairsUnique(db.saved) && r in SavedOf(db, j, p)
    ensures UpsertSaved(db, j, p, now) == (db, Success(r))
  {
    assert forall t :: t in SavedOf(db, j, p) ==> t == r;
  }
}
