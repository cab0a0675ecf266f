/**
 What an application's columns hold in every run: as inserted, its payload's job, seeker and letter, 'submitted', and one
 time for both time columns; later, the status and the time of the last review that wrote it.
 */
module Statuses {
  import opened Wrappers
  import opened Schema
  import opened Integrity
  import opened Programs
  import opened Protocol
  import opened Safety
  import opened Provenance

  /** An application as a delivery of this payload inserts it. */
  ghost predicate BornAs(payload: Payload, b: Birth) {
    && payload.ApplyToJob?
    && b.row == Application(jobId := payload.jobId, seekerId := b.row.seekerId, coverLetter := payload.coverLetter,
                            status := Submitted, createdAt := b.at, updatedAt := b.at)
  }

  ghost predicate BirthsFresh(enqueued: map<nat, Payload>, births: map<Id, Birth>) {
    forall a :: a in births ==> births[a].taskId in enqueued && BornAs(enqueued[births[a].taskId], births[a])
  }

  /** The status and updated_at of a live application. */
  ghost predicate StatusIs(past: History, a: Id, row: Application) {
    if a in past.reviews then row.status == past.reviews[a].status && row.updatedAt == past.reviews[a].at
    else row.status == Submitted && row.updatedAt == row.createdAt
  }

  ghost predicate StatusesKept(db: Db, past: History) {
    && (forall a :: a in db.applications ==> StatusIs(past, a, db.applications[a]))
    && (forall a :: a in past.reviews ==> a < db.nextId)
  }

  // ---- Deliveries ----

  lemma DeliveryInserts(q: Request, pc: Pc, db: Db, now: Time, a: Id)
    requires q.Apply? || q.Save?
    requires var after := Advance(q, pc, db, now).1; a in after.applications && a !in db.applications
    ensures var row := Advance(q, pc, db, now).1.applications[a];
      && q.Apply? && a == db.nextId
      && row == Application(jobId := q.jobId, seekerId := row.seekerId, coverLetter := q.coverLetter,
                            status := Submitted, createdAt := now, updatedAt := now)
  {
  }

  lemma DeliveryKeepsRows(q: Request, pc: Pc, db: Db, now: Time, a: Id)
    requires (q.Apply? || q.Save?) && Below(db.applications, db.nextId)
    ensures var after := Advance(q, pc, db, now).1;
      && db.nextId <= after.nextId
      && (a in db.applications ==> a in after.applications && after.applications[a] == db.applications[a])
  {
  }

  lemma SlotStatuses(s: State, w: nat, now: Time)
    requires w in s.slots && s.slots[w].taskId in s.enqueued && Below(s.db.applications, s.db.nextId)
    requires BirthsFresh(s.enqueued, s.past.births) && StatusesKept(s.db, s.past)
    ensures var after := DoRunSlot(s, w, now);
      BirthsFresh(after.enqueued, after.past.births) && StatusesKept(after.db, after.past)
  {
    var q, pc := RequestOf(s.enqueued[s.slots[w].taskId]), s.slots[w].pc;
    var after := DoRunSlot(s, w, now);
    forall a | a in after.db.applications ensures StatusIs(after.past, a, after.db.applications[a]) {
      DeliveryKeepsRows(q, pc, s.db, now, a);
      if a !in s.db.applications {
        DeliveryInserts(q, pc, s.db, now, a);
      }
    }
    forall a | a in after.past.births
      ensures after.past.births[a].taskId in after.enqueued
      ensures BornAs(after.enqueued[after.past.births[a].taskId], after.past.births[a])
    {
      if a in after.db.applications && a !in s.db.applications {
        DeliveryInserts(q, pc, s.db, now, a);
      }
    }
    DeliveryKeepsRows(q, pc, s.db, now, 0);
  }

  // ---- Requests ----

  lemma OtherRequestsKeepRows(q: Request, pc: Pc, db: Db, now: Time, a: Id)
    requires !q.Apply? && !q.Save? && (q.Review? ==> !pc.Checked?)
    requires a in Advance(q, pc, db, now).1.applications
    ensures a in db.applications && Advance(q, pc, db, now).1.applications[a] == db.applications[a]
  {
  }

  lemma ReviewWritesRow(q: Request, pc: Pc, db: Db, now: Time, a: Id)
    requires q.Review? && pc.Checked? && a in ReviewStep(q, pc, db, now).1.applications
    ensures a in db.applications
    ensures ReviewStep(q, pc, db, now).1.applications[a] ==
      if a == q.applicationId then db.applications[a].(status := q.status, updatedAt := now) else db.applications[a]
  {
  }

  lemma CallStatuses(s: State, k: nat, now: Time)
    requires k in s.calls && CallOk(s.db, s.calls[k]) && StatusesKept(s.db, s.past)
    requires s.db.nextId <= DoRunCall(s, k, now).db.nextId && Below(s.db.applications, s.db.nextId)
    ensures StatusesKept(DoRunCall(s, k, now).db, DoRunCall(s, k, now).past)
  {
    var Call(q, pc) := s.calls[k];
    var after := DoRunCall(s, k, now);
    forall a | a in after.db.applications ensures StatusIs(after.past, a, after.db.applications[a]) {
      if q.Review? && pc.Checked? {
        ReviewWritesRow(q, pc, s.db, now, a);
      } else {
        OtherRequestsKeepRows(q, pc, s.db, now, a);
      }
    }
  }

  lemma CallBirths(s: State, k: nat, now: Time)
    requires k in s.calls
    ensures DoRunCall(s, k, now).past.births == s.past.births && DoRunCall(s, k, now).enqueued == s.enqueued
  {
  }

  lemma QueueStatuses(c: Config, s: State, a: Action)
    requires QueueStep(c, s, a) && BirthsFresh(s.enqueued, s.past.births) && StatusesKept(s.db, s.past)
    ensures var after := Do(c, s, a);
      BirthsFresh(after.enqueued, after.past.births) && StatusesKept(after.db, after.past)
  {
    QueueGrows(c, s, a);
  }

  lemma StepStatuses(c: Config, s: State, a: Action)
    requires Consistent(c, s) && BirthsFresh(s.enqueued, s.past.births) && StatusesKept(s.db, s.past)
    ensures var after := Step(c, s, a);
      BirthsFresh(after.enqueued, after.past.births) && StatusesKept(after.db, after.past)
  {
    if Enabled(c, s, a) {
      if a.RunCall? {
        assert CallOk(s.db, s.calls[a.call]);
        TablesKeep(c, s, a);
        CallStatuses(s, a.call, a.now);
        CallBirths(s, a.call, a.now);
      } else if a.RunSlot? {
        SlotStatuses(s, a.slot, a.now);
      } else {
        QueueStatuses(c, s, a);
      }
    }
  }

  lemma {:induction false} EveryRunStatuses(c: Config, actions: seq<Action>)
    ensures var s := Run(c, actions); BirthsFresh(s.enqueued, s.past.births) && StatusesKept(s.db, s.past)
  {
    if actions != [] {
      var n := |actions| - 1;
      EveryRunStatuses(c, actions[..n]);
      EveryRunConsistent(c, actions[..n]);
      StepStatuses(c, Run(c, actions[..n]), actions[n]);
    }
  }

  /** A delivery past its duplicate check whose job is still there inserts its application and nothing else. */
  lemma ApplySucceeds(c: Config, actions: seq<Action>, w: nat, now: Time)
    requires var s := Run(c, actions);
      && w in s.slots && s.slots[w].pc.NoDuplicate? && s.slots[w].taskId in s.enqueued
      && RequestOf(s.enqueued[s.slots[w].taskId]).jobId in s.db.jobs
    ensures var s := Run(c, actions); var after := Step(c, s, RunSlot(w, now));
      var payload, p := s.enqueued[s.slots[w].taskId], s.slots[w].pc.profileId;
      && payload.ApplyToJob? && IsSeeker(s.db, payload.userId, p)
      && w in after.slots && after.slots[w].pc == Finished(Success(Row(s.db.nextId)))
      && s.db.nextId !in s.db.applications
      && after.db == s.db.(applications := after.db.applications, nextId := s.db.nextId + 1)
      && after.db.applications == s.db.applications[s.db.nextId :=
           Application(jobId := payload.jobId, seekerId := p, coverLetter := payload.coverLetter,
                       status := Submitted, createdAt := now, updatedAt := now)]
  {
    TablesInRuns(c, actions);
    var s := Run(c, actions);
    PoisedDelivery(c, actions, w);
    SlotStep(c, s, w, now);
    var q := RequestOf(s.enqueued[s.slots[w].taskId]);
    NewApplication(q.userId, q.jobId, s.slots[w].pc.profileId, q.coverLetter, s.db, now);
  }

  lemma PoisedDelivery(c: Config, actions: seq<Action>, w: nat)
    requires var s := Run(c, actions); w in s.slots && s.slots[w].pc.NoDuplicate? && s.slots[w].taskId in s.enqueued
    ensures var s := Run(c, actions);
      s.enqueued[s.slots[w].taskId].ApplyToJob?
      && IsSeeker(s.db, s.enqueued[s.slots[w].taskId].userId, s.slots[w].pc.profileId)
  {
    SlotsInRuns(c, actions);
    assert SlotOk(Run(c, actions).db, Run(c, actions).enqueued, Run(c, actions).slots[w]);
  }

  lemma NewApplication(u: Id, j: Id, p: Id, letter: string, db: Db, now: Time)
    requires j in db.jobs && p in db.seekers
    ensures var row := Application(jobId := j, seekerId := p, coverLetter := letter, status := Submitted,
                                   createdAt := now, updatedAt := now);
      Advance(Apply(u, j, letter), NoDuplicate(p), db, now) ==
      (Finished(Success(Row(db.nextId))),
       db.(applications := db.applications[db.nextId := row], nextId := db.nextId + 1))
  {
  }

  /** Every application a delivery inserted was submitted, at the time of the insert, with its payload's job and letter. */
  lemma ApplicationsStartSubmitted(c: Config, actions: seq<Action>, a: Id)
    requires a in Run(c, actions).past.births
    ensures var s := Run(c, actions); var b := s.past.births[a];
      && b.taskId in s.enqueued && s.enqueued[b.taskId].ApplyToJob?
      && b.row.jobId == s.enqueued[b.taskId].jobId && b.row.coverLetter == s.enqueued[b.taskId].coverLetter
      && b.row.status == Submitted && b.row.createdAt == b.at && b.row.updatedAt == b.at
  {
    EveryRunStatuses(c, actions);
  }

  /** In every run a live application has the status and time of the last review that wrote it, or is as submitted. */
  lemma StatusIsLastReview(c: Config, actions: seq<Action>, a: Id)
    requires a in Run(c, actions).db.applications
    ensures var s := Run(c, actions); var row := s.db.applications[a];
      && a in s.past.births && row.createdAt == s.past.births[a].at
      && (a in s.past.reviews ==> row.status == s.past.reviews[a].status && row.updatedAt == s.past.reviews[a].at)
      && (a !in s.past.reviews ==> row.status == Submitted && row.updatedAt == row.createdAt)
  {
    EveryRunStatuses(c, actions);
    EveryRunTraced(c, actions);
    assert StatusIs(Run(c, actions).past, a, Run(c, actions).db.applications[a]);
  }
}
