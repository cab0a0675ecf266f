/**
 When "failed" means that nothing was committed. A task that is never recovered is run by one slot at a time, commits at
 most one row, and none if it is reported failed; a task whose reply is lost and that is recovered can have done so.
 */
module Recovery {
  import opened Wrappers
  import opened Schema
  import opened Programs
  import opened Protocol
  import opened Integrity
  import opened Provenance
  import opened Attained

  /** Only tasks of this set are recovered. */
  ghost predicate RecoversOnly(actions: seq<Action>, tasks: iset<nat>) {
    forall i :: 0 <= i < |actions| && actions[i].Recover? ==> actions[i].task in tasks
  }

  ghost predicate NeverRecovered(actions: seq<Action>, t: nat) {
    forall i :: 0 <= i < |actions| && actions[i].Recover? ==> actions[i].task != t
  }

  /** A delivery of task t inserted application `id`, or its upsert returned saved row `id`. */
  predicate Committed(s: State, t: nat, id: Id) {
    (id in s.past.births && s.past.births[id].taskId == t) || Upsert(t, id) in s.past.upserts
  }

  predicate Runs(s: State, t: nat, w: nat) {
    w in s.slots && s.slots[w].taskId == t
  }

  /** One slot at most runs the task, and then it is active. */
  ghost predicate Alone(s: State, t: nat) {
    && (forall v, w :: Runs(s, t, v) && Runs(s, t, w) ==> v == w)
    && (forall w :: Runs(s, t, w) ==> t in s.enqueued && t in s.tasks && s.tasks[t].state.Active?)
  }

  /** A row the task committed is its only one; its slot, if still there, is about to report it, or has reported it. */
  ghost predicate Settled(s: State, t: nat) {
    && (forall a, b :: Committed(s, t, a) && Committed(s, t, b) ==> a == b)
    && (forall a :: Committed(s, t, a) ==>
          t in s.enqueued && (t in s.tasks ==> s.tasks[t].state.Active? || s.tasks[t].state.Completed?))
    && (forall a, w :: Committed(s, t, a) && Runs(s, t, w) ==> s.slots[w].pc == Finished(Success(Row(a))))
  }

  /** A delivery inserts an application only with its last statement, and answers with that row. */
  lemma InsertsLast(q: Request, pc: Pc, db: Db, now: Time, a: Id)
    requires (q.Apply? || q.Save?) && !pc.Finished?
    requires var after := Advance(q, pc, db, now).1; a in after.applications && a !in db.applications
    ensures Advance(q, pc, db, now).0 == Finished(Success(Row(a)))
  {
  }

  lemma SlotCommits(s: State, w: nat, now: Time, a: Id)
    requires w in s.slots && s.slots[w].taskId in s.enqueued && !s.slots[w].pc.Finished?
    ensures var after := DoRunSlot(s, w, now);
      Committed(after, s.slots[w].taskId, a) ==>
        Committed(s, s.slots[w].taskId, a) || after.slots[w].pc == Finished(Success(Row(a)))
  {
    var q := RequestOf(s.enqueued[s.slots[w].taskId]);
    var after := Advance(q, s.slots[w].pc, s.db, now).1;
    if a in after.applications && a !in s.db.applications {
      InsertsLast(q, s.slots[w].pc, s.db, now, a);
    }
  }

  lemma SlotCommitsItsOwn(s: State, w: nat, now: Time, t: nat, a: Id)
    requires w in s.slots && s.slots[w].taskId in s.enqueued && s.slots[w].taskId != t
    ensures Committed(DoRunSlot(s, w, now), t, a) ==> Committed(s, t, a)
  {
  }

  lemma RunSlotLands(s: State, w: nat, now: Time, t: nat)
    requires w in s.slots && s.slots[w].taskId in s.enqueued && !s.slots[w].pc.Finished?
    requires Alone(s, t) && Settled(s, t)
    ensures Alone(DoRunSlot(s, w, now), t) && Settled(DoRunSlot(s, w, now), t)
  {
    var after := DoRunSlot(s, w, now);
    assert forall v :: Runs(after, t, v) == Runs(s, t, v);
    if s.slots[w].taskId == t {
      assert Runs(s, t, w);
      assert forall a :: !Committed(s, t, a);
      forall a | Committed(after, t, a) ensures after.slots[w].pc == Finished(Success(Row(a))) {
        SlotCommits(s, w, now, a);
      }
    } else {
      forall a | Committed(after, t, a) ensures Committed(s, t, a) {
        SlotCommitsItsOwn(s, w, now, t, a);
      }
    }
  }

  lemma CallLands(s: State, k: nat, now: Time, t: nat)
    requires k in s.calls && Alone(s, t) && Settled(s, t)
    ensures Alone(DoRunCall(s, k, now), t) && Settled(DoRunCall(s, k, now), t)
  {
    var after := DoRunCall(s, k, now);
    assert forall a :: Committed(after, t, a) == Committed(s, t, a);
    assert forall w :: Runs(after, t, w) == Runs(s, t, w);
  }

  lemma QueueAlone(c: Config, s: State, a: Action, t: nat)
    requires QueueStep(c, s, a) && (a.Recover? ==> a.task != t) && Alone(s, t)
    ensures Alone(Do(c, s, a), t)
  {
    assert a.Return? && s.slots[a.slot].taskId == t ==> Runs(s, t, a.slot);
    assert forall w :: Runs(Do(c, s, a), t, w) ==> Runs(s, t, w) || (a.Deliver? && a.task == t && a.slot == w);
  }

  lemma QueueLands(c: Config, s: State, a: Action, t: nat)
    requires QueueStep(c, s, a) && (a.Recover? ==> a.task != t) && Alone(s, t) && Settled(s, t)
    ensures Settled(Do(c, s, a), t)
  {
    QueueGrows(c, s, a);
    assert forall x :: Committed(Do(c, s, a), t, x) == Committed(s, t, x);
    assert a.Return? && s.slots[a.slot].taskId == t ==> Runs(s, t, a.slot);
    assert forall w :: Runs(Do(c, s, a), t, w) ==> Runs(s, t, w) || (a.Deliver? && a.task == t && a.slot == w);
  }

  lemma StepLands(c: Config, s: State, a: Action, t: nat)
    requires (a.Recover? ==> a.task != t) && Alone(s, t) && Settled(s, t)
    ensures Alone(Step(c, s, a), t) && Settled(Step(c, s, a), t)
  {
    if Enabled(c, s, a) {
      if a.RunSlot? {
        RunSlotLands(s, a.slot, a.now, t);
      } else if a.RunCall? {
        CallLands(s, a.call, a.now, t);
      } else {
        QueueAlone(c, s, a, t);
        QueueLands(c, s, a, t);
      }
    }
  }

  lemma {:induction false} UnrecoveredLands(c: Config, actions: seq<Action>, t: nat)
    requires NeverRecovered(actions, t)
    ensures Alone(Run(c, actions), t) && Settled(Run(c, actions), t)
  {
    if actions != [] {
      var n := |actions| - 1;
      UnrecoveredLands(c, actions[..n], t);
      StepLands(c, Run(c, actions[..n]), actions[n], t);
    }
  }

  ghost predicate ReportedFailed(s: State, t: nat) {
    t in s.tasks && StatusOf(s.tasks[t].state) == StatusFailed
  }

  /**
   In every interleaving a task that is never recovered commits at most one row, and none at all if it is reported
   failed.
   */
  lemma FailedMeansNotApplied(c: Config, actions: seq<Action>, t: nat)
    requires NeverRecovered(actions, t)
    ensures var s := Run(c, actions);
      && (forall a, b :: Committed(s, t, a) && Committed(s, t, b) ==> a == b)
      && (ReportedFailed(s, t) ==> forall a :: !Committed(s, t, a))
  {
    UnrecoveredLands(c, actions, t);
  }

  /** Without a slot nothing is ever delivered. */
  lemma {:induction false} NoSlotNoRow(c: Config, actions: seq<Action>)
    requires c.concurrency == 0
    ensures var s := Run(c, actions); s.slots == map[] && s.past.births == map[] && s.past.upserts == {}
  {
    if actions != [] {
      NoSlotNoRow(c, actions[..|actions| - 1]);
    }
  }

  // ---- A "failed" task may have applied ----

  /** The handler commits its row, and the process dies before the task is marked completed. */
  function LostReply(t: nat): seq<Action> {
    [RunSlot(0, 0), Crash, Recover(t, true), Deliver(t, 0)]
  }

  /** The redelivery finds the row of the lost delivery and gives up. */
  function Refused(): seq<Action> {
    [RunSlot(0, 0), RunSlot(0, 0), RunSlot(0, 0), Return(0, false)]
  }

  lemma Redelivered(c: Config, s: State, t: nat)
    requires 0 < c.concurrency && t in s.enqueued && t in s.tasks && s.tasks[t].state.Active?
    ensures var after := Step(c, Step(c, Step(c, s, Crash), Recover(t, true)), Deliver(t, 0));
      && after.db == s.db && after.past == s.past && after.enqueued == s.enqueued
      && after.slots == map[0 := Slot(t, Start)] && t in after.tasks && after.tasks[t].state.Active?
  {
    var s3 := Step(c, Step(c, s, Crash), Recover(t, true));
    assert s3.tasks[t].state.Retry? && s3.slots == map[] && s3.enqueued == s.enqueued;
  }

  lemma ReplyLost(c: Config, s: State, token: Token, p: Id, j: Id, t: nat)
    requires 0 < c.concurrency && j in s.db.jobs && p in s.db.seekers && Below(s.db.applications, s.db.nextId)
    requires Poised(s, token, p, j, t, 0) && t in s.tasks && s.tasks[t].state.Active?
    ensures var after := Exec(c, s, LostReply(t));
      && after.db == InsertApplication(s.db, j, p, "", 0).0
      && after.slots == map[0 := Slot(t, Start)] && after.enqueued == s.enqueued
      && t in after.tasks && after.tasks[t].state.Active?
      && s.db.nextId in after.past.births && after.past.births[s.db.nextId].taskId == t
  {
    ExecFour(c, s, RunSlot(0, 0), Crash, Recover(t, true), Deliver(t, 0));
    InsertStep(c, s, token, p, j, t, 0);
    Redelivered(c, Step(c, s, RunSlot(0, 0)), t);
  }

  lemma RedeliveryRefused(c: Config, s: State, p: Id, j: Id, t: nat, userId: Id)
    requires s.slots == map[0 := Slot(t, Start)] && t in s.enqueued && s.enqueued[t] == ApplyToJob(userId, j, "")
    requires SeekerOf(s.db, userId) == Some(p) && j in s.db.jobs && s.db.jobs[j].isActive
    requires ApplicationsOf(s.db, j, p) != {} && t in s.tasks && s.tasks[t].state.Active?
    ensures var after := Exec(c, s, Refused());
      && after.db == s.db && t in after.tasks && after.tasks[t].state.Archived?
      && forall a :: a in s.past.births ==> a in after.past.births && after.past.births[a] == s.past.births[a]
  {
    ExecFour(c, s, RunSlot(0, 0), RunSlot(0, 0), RunSlot(0, 0), Return(0, false));
    DuplicateChecked(c, s, p, j, 0, userId, "");
  }

  /** A run in which task t has applied, lost its reply and been delivered again. */
  lemma AppliedAndLost(c: Config, t: nat) returns (actions: seq<Action>, token: Token, p: Id, j: Id, a: Id)
    requires 0 < c.concurrency
    ensures RecoversOnly(actions, iset{t})
    ensures var s := Run(c, actions);
      && s.slots == map[0 := Slot(t, Start)] && t in s.enqueued && s.enqueued[t] == ApplyToJob(token.userId, j, "")
      && SeekerOf(s.db, token.userId) == Some(p) && j in s.db.jobs && s.db.jobs[j].isActive
      && a in ApplicationsOf(s.db, j, p) && t in s.tasks && s.tasks[t].state.Active?
      && a in s.past.births && s.past.births[a].taskId == t
  {
    var xs;
    xs, token, p, j := ReadyRun(c, t);
    WalkReaches(c, Run(c, xs), token, p, j, t, 0);
    ExecAppend(c, INITIAL, xs, Walk(token, j, t, 0));
    var s1 := Run(c, xs + Walk(token, j, t, 0));
    ReplyLost(c, s1, token, p, j, t);
    ExecAppend(c, INITIAL, xs + Walk(token, j, t, 0), LostReply(t));
    a := s1.db.nextId;
    actions := xs + Walk(token, j, t, 0) + LostReply(t);
  }

  /** Any task can be reported failed and have applied: its reply is lost, it is recovered and refused. */
  lemma FailedThoughApplied(c: Config, t: nat) returns (actions: seq<Action>, a: Id)
    requires 0 < c.concurrency
    ensures RecoversOnly(actions, iset{t})
    ensures var s := Run(c, actions); ReportedFailed(s, t) && Committed(s, t, a) && a in s.db.applications
  {
    var before, token, p, j, row := AppliedAndLost(c, t);
    a := row;
    RedeliveryRefused(c, Run(c, before), p, j, t, token.userId);
    ExecAppend(c, INITIAL, before, Refused());
    actions := before + Refused();
  }

  // ---- The condition ----

  /** In every interleaving that recovers only these tasks, a task reported failed has committed nothing. */
  ghost predicate FailedIsReliable(c: Config, tasks: iset<nat>) {
    forall actions: seq<Action>, t: nat, a: Id ::
      RecoversOnly(actions, tasks) && ReportedFailed(Run(c, actions), t) ==> !Committed(Run(c, actions), t, a)
  }

  /** "failed" can be trusted in every run if and only if no task is ever recovered, or the worker has no slot. */
  lemma FailedIsReliableIff(c: Config, tasks: iset<nat>)
    ensures FailedIsReliable(c, tasks) <==> tasks == iset{} || c.concurrency == 0
  {
    if tasks == iset{} || c.concurrency == 0 {
      forall actions: seq<Action>, t: nat, a: Id | RecoversOnly(actions, tasks) && ReportedFailed(Run(c, actions), t)
        ensures !Committed(Run(c, actions), t, a)
      {
        if c.concurrency == 0 {
          NoSlotNoRow(c, actions);
        } else {
          FailedMeansNotApplied(c, actions, t);
        }
      }
    } else {
      var t :| t in tasks;
      var actions, a := FailedThoughApplied(c, t);
      assert RecoversOnly(actions, tasks);
    }
  }
}
