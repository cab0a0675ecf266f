/**
 The duplicate check of ApplyToJob under a concurrent worker. applications has no UNIQUE (job_id, job_seeker_id),
 so the check alone does not make an application unique; the worker's concurrency bounds how many can slip by.
 */
module Duplicates {
  import opened Schema
  import opened Programs
  import opened Protocol
  import opened Safety

  /** The slots that are past the duplicate check for a pair and have not inserted yet. */
  function Racing(slots: map<nat, Slot>, enqueued: map<nat, Payload>, j: Id, p: Id): set<nat> {
    set w | w in slots && slots[w].pc == NoDuplicate(p) && slots[w].taskId in enqueued
            && enqueued[slots[w].taskId].ApplyToJob? && enqueued[slots[w].taskId].jobId == j
  }

  ghost predicate Bounded(c: Config, s: State, j: Id, p: Id) {
    |ApplicationsOf(s.db, j, p)| + |Racing(s.slots, s.enqueued, j, p)| <= c.concurrency
  }

  lemma {:induction false} SubsetCard(a: set<nat>, b: set<nat>)
    requires a <= b
    ensures |a| <= |b|
  {
    if a != {} {
      var x :| x in a;
      SubsetCard(a - {x}, b - {x});
    }
  }

  lemma {:induction false} BelowCard(a: set<nat>, n: nat)
    requires forall x :: x in a ==> x < n
    ensures |a| <= n
  {
    if n == 0 {
      assert a == {};
    } else {
      BelowCard(a - {n - 1}, n - 1);
    }
  }

  /** Only the insert of ApplyToJob adds an application to a pair, and it adds one. */
  lemma AdvanceApplications(q: Request, pc: Pc, db: Db, now: Time, j: Id, p: Id)
    ensures ApplicationsOf(Advance(q, pc, db, now).1, j, p) <=
            ApplicationsOf(db, j, p) + (if q.Apply? && pc == NoDuplicate(p) && q.jobId == j then {db.nextId} else {})
  {
  }

  lemma AddOne(a: set<Id>, b: set<Id>, x: Id)
    requires b <= a + {x}
    ensures |b| <= |a| + 1
  {
    SubsetCard(b, a + {x});
  }

  /** A slot inserts: the pair may gain a row, and one slot fewer is past the check. */
  lemma InsertBounded(c: Config, s: State, w: nat, now: Time, j: Id, p: Id)
    requires w in Racing(s.slots, s.enqueued, j, p) && Bounded(c, s, j, p)
    ensures Bounded(c, DoRunSlot(s, w, now), j, p)
  {
    var q := RequestOf(s.enqueued[s.slots[w].taskId]);
    AdvanceApplications(q, s.slots[w].pc, s.db, now, j, p);
    var after := DoRunSlot(s, w, now);
    AddOne(ApplicationsOf(s.db, j, p), ApplicationsOf(after.db, j, p), s.db.nextId);
    assert Racing(after.slots, s.enqueued, j, p) == Racing(s.slots, s.enqueued, j, p) - {w};
  }

  /** A slot passes the check: the pair has no row, and the slots past the check are at most all of them. */
  lemma CheckBounded(c: Config, s: State, w: nat, now: Time, j: Id, p: Id)
    requires w in s.slots && s.slots[w].taskId in s.enqueued && (forall v :: v in s.slots ==> v < c.concurrency)
    requires w in Racing(DoRunSlot(s, w, now).slots, s.enqueued, j, p) && !s.slots[w].pc.NoDuplicate?
    ensures Bounded(c, DoRunSlot(s, w, now), j, p)
  {
    var after := DoRunSlot(s, w, now);
    assert ApplicationsOf(s.db, j, p) == {} && after.db == s.db;
    BelowCard(Racing(after.slots, s.enqueued, j, p), c.concurrency);
  }

  lemma OtherSlotBounded(c: Config, s: State, w: nat, now: Time, j: Id, p: Id)
    requires w in s.slots && s.slots[w].taskId in s.enqueued && !s.slots[w].pc.Finished?
    requires Bounded(c, s, j, p)
    requires w !in Racing(s.slots, s.enqueued, j, p) && w !in Racing(DoRunSlot(s, w, now).slots, s.enqueued, j, p)
    ensures Bounded(c, DoRunSlot(s, w, now), j, p)
  {
    var after := DoRunSlot(s, w, now);
    AdvanceApplications(RequestOf(s.enqueued[s.slots[w].taskId]), s.slots[w].pc, s.db, now, j, p);
    SubsetCard(ApplicationsOf(after.db, j, p), ApplicationsOf(s.db, j, p));
    assert Racing(after.slots, s.enqueued, j, p) == Racing(s.slots, s.enqueued, j, p);
  }

  lemma CallBounded(c: Config, s: State, k: nat, now: Time, j: Id, p: Id)
    requires k in s.calls && !s.calls[k].request.Apply? && Bounded(c, s, j, p)
    ensures Bounded(c, DoRunCall(s, k, now), j, p)
  {
    AdvanceApplications(s.calls[k].request, s.calls[k].pc, s.db, now, j, p);
    SubsetCard(ApplicationsOf(DoRunCall(s, k, now).db, j, p), ApplicationsOf(s.db, j, p));
  }

  lemma QueueBounded(c: Config, s: State, a: Action, j: Id, p: Id)
    requires Enabled(c, s, a) && !a.RunCall? && !a.RunSlot? && Bounded(c, s, j, p)
    requires forall w :: w in s.slots ==> s.slots[w].taskId in s.enqueued
    ensures Bounded(c, Do(c, s, a), j, p)
  {
    var after := Do(c, s, a);
    assert after.db == s.db;
    assert Racing(after.slots, after.enqueued, j, p) <= Racing(s.slots, s.enqueued, j, p);
    SubsetCard(Racing(after.slots, after.enqueued, j, p), Racing(s.slots, s.enqueued, j, p));
  }

  lemma StepBounded(c: Config, s: State, a: Action, j: Id, p: Id)
    requires CallsOk(s.db, s.calls) && SlotsOk(s.db, s.enqueued, s.slots)
    requires (forall w :: w in s.slots ==> w < c.concurrency) && Bounded(c, s, j, p)
    ensures Bounded(c, Step(c, s, a), j, p)
  {
    if Enabled(c, s, a) {
      if a.RunCall? {
        assert CallOk(s.db, s.calls[a.call]);
        CallBounded(c, s, a.call, a.now, j, p);
      } else if !a.RunSlot? {
        forall w | w in s.slots ensures s.slots[w].taskId in s.enqueued {
          assert SlotOk(s.db, s.enqueued, s.slots[w]);
        }
        QueueBounded(c, s, a, j, p);
      } else if a.slot in Racing(s.slots, s.enqueued, j, p) {
        InsertBounded(c, s, a.slot, a.now, j, p);
      } else if a.slot in Racing(DoRunSlot(s, a.slot, a.now).slots, s.enqueued, j, p) {
        SlotEntersOnce(s, a.slot, a.now, j, p);
        CheckBounded(c, s, a.slot, a.now, j, p);
      } else {
        OtherSlotBounded(c, s, a.slot, a.now, j, p);
      }
    }
  }

  lemma SlotEntersOnce(s: State, w: nat, now: Time, j: Id, p: Id)
    requires w in s.slots && s.slots[w].taskId in s.enqueued && w !in Racing(s.slots, s.enqueued, j, p)
    requires w in Racing(DoRunSlot(s, w, now).slots, s.enqueued, j, p)
    ensures !s.slots[w].pc.NoDuplicate?
  {
  }

  /**
   For every interleaving of any number of tasks, redeliveries, crashes, withdrawals and deletions, and for each
   (job, seeker) pair: live rows plus slots past the duplicate check never exceed the worker's concurrency.
   */
  lemma {:induction false} DuplicatesBounded(c: Config, actions: seq<Action>, j: Id, p: Id)
    ensures Bounded(c, Run(c, actions), j, p)
  {
    if actions == [] {
      assert ApplicationsOf(EMPTY, j, p) == {} && Racing(map[], map[], j, p) == {};
    } else {
      var n := |actions| - 1;
      DuplicatesBounded(c, actions[..n], j, p);
      CallsInRuns(c, actions[..n]);
      SlotsInRuns(c, actions[..n]);
      StepBounded(c, Run(c, actions[..n]), actions[n], j, p);
    }
  }
}
