/**
 Where rows come from under at-least-once delivery: every application row traces back to an enqueued payload,
 and a task reported "completed" had a handler run that committed its row.
 */
module Provenance {
  import opened Schema
  import opened Integrity
  import opened Programs
  import opened Stability
  import opened Protocol
  import opened Safety

  /** The status strings of GET /api/queue/job/:taskId (asynqStateToStatus). */
  datatype Reported = StatusActive | StatusWaiting | StatusDelayed | StatusFailed | StatusCompleted

  function StatusOf(state: TaskState): Reported {
    match state
    case Active => StatusActive
    case Pending => StatusWaiting
    case Scheduled => StatusDelayed
    case Retry => StatusWaiting
    case Archived => StatusFailed
    case Completed => StatusCompleted
  }

  /** What the poller of a queued task is told in each state, and nothing else. */
  lemma ReportedStates(state: TaskState)
    ensures StatusOf(state) == StatusActive <==> state == Active
    ensures StatusOf(state) == StatusWaiting <==> state == Pending || state == Retry
    ensures StatusOf(state) == StatusDelayed <==> state == Scheduled
    ensures StatusOf(state) == StatusFailed <==> state == Archived
    ensures StatusOf(state) == StatusCompleted <==> state == Completed
  {
  }

  /** An application row that is what this payload asks for, filed under the payload's own user. */
  ghost predicate Answers(db: Db, payload: Payload, row: Application) {
    && payload.ApplyToJob?
    && row.jobId == payload.jobId && row.coverLetter == payload.coverLetter
    && row.seekerId in db.seekers && db.seekers[row.seekerId].userId == payload.userId
  }

  ghost predicate BirthOk(db: Db, enqueued: map<nat, Payload>, b: Birth) {
    b.taskId in enqueued && Answers(db, enqueued[b.taskId], b.row)
  }

  ghost predicate BirthsOk(db: Db, enqueued: map<nat, Payload>, births: map<Id, Birth>) {
    forall a :: a in births ==> BirthOk(db, enqueued, births[a]) && a < db.nextId
  }

  ghost predicate RowsBorn(applications: map<Id, Application>, births: map<Id, Birth>) {
    forall a :: a in applications ==> a in births && ApplicationKept(births[a].row, applications[a])
  }

  ghost predicate SavesKept(db: Db, kept: map<Id, SavedJob>) {
    && (forall r :: r in kept ==> r < db.nextId)
    && (forall r :: r in db.saved ==> r in kept && kept[r] == db.saved[r])
  }

  /**
   A delivery of task `t` committed row `id`, whatever has happened to the row since: it inserted the application, or
   its upsert returned the saved row of the payload's job and user.
   */
  ghost predicate CommittedFor(s: State, t: nat, id: Id) {
    && t in s.enqueued
    && match s.enqueued[t]
       case ApplyToJob(_, _, _) => id in s.past.births && s.past.births[id].taskId == t
       case SaveJob(u, j) =>
         && Upsert(t, id) in s.past.upserts
         && id in s.past.kept && s.past.kept[id].jobId == j
         && s.past.kept[id].seekerId in s.db.seekers && s.db.seekers[s.past.kept[id].seekerId].userId == u
  }

  ghost predicate SlotCommitted(s: State, slot: Slot) {
    slot.pc.Finished? && slot.pc.outcome.Success? ==>
      slot.pc.outcome.value.Row? && CommittedFor(s, slot.taskId, slot.pc.outcome.value.id)
  }

  ghost predicate TaskCommitted(s: State, t: nat)
    requires t in s.tasks
  {
    s.tasks[t].state.Completed? ==> s.tasks[t].result.Some? && CommittedFor(s, t, s.tasks[t].result.value)
  }

  ghost predicate Traced(s: State) {
    && BirthsOk(s.db, s.enqueued, s.past.births)
    && RowsBorn(s.db.applications, s.past.births)
    && SavesKept(s.db, s.past.kept)
    && (forall w :: w in s.slots ==> SlotCommitted(s, s.slots[w]))
    && (forall t :: t in s.tasks ==> TaskCommitted(s, t))
  }

  // ---- Nothing committed is ever lost from the history ----

  ghost predicate HistoryGrows(s: State, after: State) {
    && ProfilesKept(s.db.seekers, after.db.seekers) && s.db.nextId <= after.db.nextId
    && (forall t :: t in s.enqueued ==> t in after.enqueued && after.enqueued[t] == s.enqueued[t])
    && (forall a :: a in s.past.births ==> a in after.past.births && after.past.births[a] == s.past.births[a])
    && (forall r :: r in s.past.kept ==> r in after.past.kept && after.past.kept[r] == s.past.kept[r])
    && s.past.upserts <= after.past.upserts
  }

  lemma CommittedForever(s: State, after: State, t: nat, id: Id)
    requires HistoryGrows(s, after) && CommittedFor(s, t, id)
    ensures CommittedFor(after, t, id)
  {
  }

  lemma BirthsForever(a: Db, b: Db, enqueued: map<nat, Payload>, more: map<nat, Payload>, births: map<Id, Birth>)
    requires ProfilesKept(a.seekers, b.seekers) && a.nextId <= b.nextId && BirthsOk(a, enqueued, births)
    requires forall t :: t in enqueued ==> t in more && more[t] == enqueued[t]
    ensures BirthsOk(b, more, births)
  {
    forall x | x in births ensures BirthOk(b, more, births[x]) {
      assert BirthOk(a, enqueued, births[x]);
    }
  }

  // ---- Worker steps ----

  /** What one statement of a delivery adds: at most one row, with a fresh id, answering the payload. */
  lemma DeliveryWrites(q: Request, pc: Pc, db: Db, now: Time)
    requires (q.Apply? || q.Save?) && Holds(db, q, pc) && Below(db.applications, db.nextId) && Below(db.saved, db.nextId)
    ensures var after := Advance(q, pc, db, now).1;
      && after.seekers == db.seekers && db.nextId <= after.nextId
      && (forall a :: a in after.applications && a !in db.applications ==>
            a == db.nextId && a < after.nextId && after.applications[a].coverLetter == q.coverLetter
            && after.applications[a].jobId == q.jobId && OwnProfile(db, q, after.applications[a].seekerId))
      && (forall r :: r in after.saved && r !in db.saved ==> r == db.nextId && r < after.nextId)
      && (forall a :: a in db.applications ==> a in after.applications && after.applications[a] == db.applications[a])
      && (forall r :: r in db.saved ==> r in after.saved && after.saved[r] == db.saved[r])
      && (q.Save? ==> after.applications == db.applications)
  {
  }

  /** A delivery that ends well returns the id of a row that is in the table at that moment. */
  lemma DeliveryReturns(q: Request, pc: Pc, db: Db, now: Time)
    requires (q.Apply? || q.Save?) && !pc.Finished? && !pc.Authenticated? && Holds(db, q, pc)
    ensures var (next, after) := Advance(q, pc, db, now);
      next.Finished? && next.outcome.Success? ==>
        && next.outcome.value.Row?
        && var id := next.outcome.value.id;
        && (q.Apply? ==> id == db.nextId && id in after.applications)
        && (q.Save? ==> pc.Checked? && id in after.saved && after.saved[id].jobId == q.jobId && OwnProfile(db, q, after.saved[id].seekerId))
  {
    if q.Save? && pc.Checked? && SavedOf(db, q.jobId, pc.profileId) != {} {
      var r := UpsertSaved(db, q.jobId, pc.profileId, now).1.value;
      assert r in SavedOf(db, q.jobId, pc.profileId);
    }
  }

  lemma SlotHistoryGrows(s: State, w: nat, now: Time)
    requires w in s.slots && SlotOk(s.db, s.enqueued, s.slots[w]) && BirthsOk(s.db, s.enqueued, s.past.births)
    requires SavesKept(s.db, s.past.kept) && Below(s.db.applications, s.db.nextId) && Below(s.db.saved, s.db.nextId)
    ensures HistoryGrows(s, DoRunSlot(s, w, now))
  {
    DeliveryWrites(RequestOf(s.enqueued[s.slots[w].taskId]), s.slots[w].pc, s.db, now);
  }

  lemma SlotBirths(s: State, w: nat, now: Time)
    requires w in s.slots && SlotOk(s.db, s.enqueued, s.slots[w])
    requires BirthsOk(s.db, s.enqueued, s.past.births) && RowsBorn(s.db.applications, s.past.births)
    requires Below(s.db.applications, s.db.nextId) && Below(s.db.saved, s.db.nextId)
    ensures var after := DoRunSlot(s, w, now);
      BirthsOk(after.db, after.enqueued, after.past.births) && RowsBorn(after.db.applications, after.past.births)
  {
    var Slot(t, pc) := s.slots[w];
    var q := RequestOf(s.enqueued[t]);
    var after := DoRunSlot(s, w, now);
    DeliveryWrites(q, pc, s.db, now);
    BirthsForever(s.db, after.db, s.enqueued, s.enqueued, s.past.births);
    forall a | a in after.past.births
      ensures BirthOk(after.db, after.enqueued, after.past.births[a]) && a < after.db.nextId
    {
      if a in after.db.applications && a !in s.db.applications {
        assert after.past.births[a] == Birth(t, now, after.db.applications[a]);
      } else {
        assert after.past.births[a] == s.past.births[a];
      }
    }
  }

  lemma SlotSaves(s: State, w: nat, now: Time)
    requires w in s.slots && SlotOk(s.db, s.enqueued, s.slots[w]) && SavesKept(s.db, s.past.kept)
    requires Below(s.db.applications, s.db.nextId) && Below(s.db.saved, s.db.nextId)
    ensures SavesKept(DoRunSlot(s, w, now).db, DoRunSlot(s, w, now).past.kept)
  {
    DeliveryWrites(RequestOf(s.enqueued[s.slots[w].taskId]), s.slots[w].pc, s.db, now);
  }

  lemma SlotReturns(s: State, w: nat, now: Time)
    requires w in s.slots && SlotOk(s.db, s.enqueued, s.slots[w]) && !s.slots[w].pc.Finished?
    requires SavesKept(s.db, s.past.kept) && Below(s.db.applications, s.db.nextId) && Below(s.db.saved, s.db.nextId)
    ensures SlotCommitted(DoRunSlot(s, w, now), DoRunSlot(s, w, now).slots[w])
  {
    var q := RequestOf(s.enqueued[s.slots[w].taskId]);
    DeliveryWrites(q, s.slots[w].pc, s.db, now);
    if !s.slots[w].pc.Authenticated? {
      DeliveryReturns(q, s.slots[w].pc, s.db, now);
    }
    SlotSaves(s, w, now);
  }

  lemma SlotTraced(s: State, w: nat, now: Time)
    requires w in s.slots && SlotOk(s.db, s.enqueued, s.slots[w]) && !s.slots[w].pc.Finished?
    requires Traced(s) && Below(s.db.applications, s.db.nextId) && Below(s.db.saved, s.db.nextId)
    ensures Traced(DoRunSlot(s, w, now))
  {
    var after := DoRunSlot(s, w, now);
    SlotHistoryGrows(s, w, now);
    SlotBirths(s, w, now);
    SlotSaves(s, w, now);
    SlotReturns(s, w, now);
    forall v | v in after.slots ensures SlotCommitted(after, after.slots[v]) {
      if v != w && s.slots[v].pc.Finished? && s.slots[v].pc.outcome.Success? {
        assert SlotCommitted(s, s.slots[v]);
        CommittedForever(s, after, s.slots[v].taskId, s.slots[v].pc.outcome.value.id);
      }
    }
    TasksForever(s, after);
  }

  lemma TasksForever(s: State, after: State)
    requires HistoryGrows(s, after) && (forall t :: t in s.tasks ==> TaskCommitted(s, t))
    requires after.tasks == s.tasks
    ensures forall t :: t in after.tasks ==> TaskCommitted(after, t)
  {
    forall t | t in after.tasks ensures TaskCommitted(after, t) {
      assert TaskCommitted(s, t);
      if s.tasks[t].state.Completed? {
        CommittedForever(s, after, t, s.tasks[t].result.value);
      }
    }
  }

  lemma SlotsForever(s: State, after: State)
    requires HistoryGrows(s, after) && (forall w :: w in s.slots ==> SlotCommitted(s, s.slots[w]))
    requires after.slots == s.slots
    ensures forall w :: w in after.slots ==> SlotCommitted(after, after.slots[w])
  {
    forall w | w in after.slots ensures SlotCommitted(after, after.slots[w]) {
      assert SlotCommitted(s, s.slots[w]);
      if s.slots[w].pc.Finished? && s.slots[w].pc.outcome.Success? {
        CommittedForever(s, after, s.slots[w].taskId, s.slots[w].pc.outcome.value.id);
      }
    }
  }

  // ---- Every other step ----

  lemma CallGrows(s: State, k: nat, now: Time)
    requires k in s.calls && AccountsEvolve(s.db, DoRunCall(s, k, now).db)
    ensures var after := DoRunCall(s, k, now);
      && HistoryGrows(s, after)
      && after.past.births == s.past.births && after.past.kept == s.past.kept && after.past.upserts == s.past.upserts
      && after.slots == s.slots && after.tasks == s.tasks && after.enqueued == s.enqueued
  {
  }

  lemma CallTraced(s: State, k: nat, now: Time)
    requires k in s.calls && CallOk(s.db, s.calls[k]) && Traced(s)
    requires Evolves(s.db, DoRunCall(s, k, now).db)
    ensures Traced(DoRunCall(s, k, now))
  {
    var after := DoRunCall(s, k, now);
    CallsInsertNoRows(s.calls[k].request, s.calls[k].pc, s.db, now);
    CallGrows(s, k, now);
    BirthsForever(s.db, after.db, s.enqueued, s.enqueued, s.past.births);
    SlotsForever(s, after);
    TasksForever(s, after);
  }

  lemma CallsInsertNoRows(q: Request, pc: Pc, db: Db, now: Time)
    requires !q.Apply? && !q.Save?
    ensures var after := Advance(q, pc, db, now).1;
      && (forall a :: a in after.applications ==> a in db.applications && ApplicationKept(db.applications[a], after.applications[a]))
      && (forall r :: r in after.saved ==> r in db.saved && after.saved[r] == db.saved[r])
  {
  }

  /** A step of the queue or of a request's start and end. */
  predicate QueueStep(c: Config, s: State, a: Action) {
    Enabled(c, s, a) && !a.RunCall? && !a.RunSlot?
  }

  lemma QueueGrows(c: Config, s: State, a: Action)
    requires QueueStep(c, s, a)
    ensures HistoryGrows(s, Do(c, s, a)) && Do(c, s, a).db == s.db && Do(c, s, a).past == s.past
  {
  }

  lemma QueueSlotsTraced(c: Config, s: State, a: Action, v: nat)
    requires QueueStep(c, s, a) && (forall w :: w in s.slots ==> SlotCommitted(s, s.slots[w]))
    requires v in Do(c, s, a).slots
    ensures SlotCommitted(Do(c, s, a), Do(c, s, a).slots[v])
  {
    QueueGrows(c, s, a);
    if v in s.slots && Do(c, s, a).slots[v] == s.slots[v] {
      assert SlotCommitted(s, s.slots[v]);
      if s.slots[v].pc.Finished? && s.slots[v].pc.outcome.Success? {
        CommittedForever(s, Do(c, s, a), s.slots[v].taskId, s.slots[v].pc.outcome.value.id);
      }
    }
  }

  lemma QueueTasksTraced(c: Config, s: State, a: Action, t: nat)
    requires QueueStep(c, s, a) && s.tasks.Keys <= s.enqueued.Keys
    requires forall w :: w in s.slots ==> SlotCommitted(s, s.slots[w])
    requires forall x :: x in s.tasks ==> TaskCommitted(s, x)
    requires t in Do(c, s, a).tasks
    ensures TaskCommitted(Do(c, s, a), t)
  {
    var after := Do(c, s, a);
    QueueGrows(c, s, a);
    if t in s.tasks && after.tasks[t] == s.tasks[t] {
      assert TaskCommitted(s, t);
      if s.tasks[t].state.Completed? {
        CommittedForever(s, after, t, s.tasks[t].result.value);
      }
    } else if a.Return? {
      assert SlotCommitted(s, s.slots[a.slot]);
    }
  }

  lemma QueueTraced(c: Config, s: State, a: Action)
    requires QueueStep(c, s, a) && Traced(s) && s.tasks.Keys <= s.enqueued.Keys
    ensures Traced(Do(c, s, a))
  {
    var after := Do(c, s, a);
    QueueGrows(c, s, a);
    BirthsForever(s.db, after.db, s.enqueued, after.enqueued, s.past.births);
    forall v | v in after.slots ensures SlotCommitted(after, after.slots[v]) {
      QueueSlotsTraced(c, s, a, v);
    }
    forall t | t in after.tasks ensures TaskCommitted(after, t) {
      QueueTasksTraced(c, s, a, t);
    }
  }

  lemma StepTraced(c: Config, s: State, a: Action)
    requires Consistent(c, s) && Traced(s)
    ensures Traced(Step(c, s, a))
  {
    if Enabled(c, s, a) {
      if a.RunCall? {
        assert CallOk(s.db, s.calls[a.call]);
        TablesKeep(c, s, a);
        CallTraced(s, a.call, a.now);
      } else if a.RunSlot? {
        assert SlotOk(s.db, s.enqueued, s.slots[a.slot]);
        SlotTraced(s, a.slot, a.now);
      } else {
        QueueTraced(c, s, a);
      }
    }
  }

  lemma {:induction false} EveryRunTraced(c: Config, actions: seq<Action>)
    ensures Traced(Run(c, actions))
  {
    if actions != [] {
      var n := |actions| - 1;
      EveryRunTraced(c, actions[..n]);
      EveryRunConsistent(c, actions[..n]);
      StepTraced(c, Run(c, actions[..n]), actions[n]);
    }
  }

  /** Every application row, in every state, answers a payload that a seeker enqueued. */
  lemma RowsComeFromPayloads(c: Config, actions: seq<Action>, a: Id)
    requires a in Run(c, actions).db.applications
    ensures var s := Run(c, actions);
      exists t :: t in s.enqueued && Answers(s.db, s.enqueued[t], s.db.applications[a])
  {
    EveryRunTraced(c, actions);
    var s := Run(c, actions);
    assert BirthOk(s.db, s.enqueued, s.past.births[a]);
    assert Answers(s.db, s.enqueued[s.past.births[a].taskId], s.db.applications[a]);
  }

  /** A task reported "completed" carries the id of a row that a delivery of it committed. */
  lemma CompletedMeansCommitted(c: Config, actions: seq<Action>, t: nat)
    requires t in Run(c, actions).tasks && StatusOf(Run(c, actions).tasks[t].state) == StatusCompleted
    ensures var s := Run(c, actions); s.tasks[t].result.Some? && CommittedFor(s, t, s.tasks[t].result.value)
  {
    EveryRunTraced(c, actions);
    assert TaskCommitted(Run(c, actions), t);
  }
}
