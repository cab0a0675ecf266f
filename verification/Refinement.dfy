/**
 Every interleaving of the Protocol is a schedule of the imperative services: the statements of a request or of a
 delivery, run among the steps of everything else, go as the methods of Services go when the pool's schedule says what
 those steps left.
 */
module Refinement {
  import opened Wrappers
  import opened Schema
  import opened Integrity
  import opened Programs
  import opened Stability
  import opened Protocol
  import opened Safety
  import opened Database
  import opened Serving

  /** A request in flight or a worker slot. */
  datatype Thread = CallOf(call: nat) | SlotOf(slot: nat)

  /** The request a thread serves and where it stands. */
  function At(s: State, th: Thread): Option<Call> {
    match th
    case CallOf(k) => if k in s.calls then Some(s.calls[k]) else None
    case SlotOf(w) =>
      if w in s.slots && s.slots[w].taskId in s.enqueued
      then Some(Call(RequestOf(s.enqueued[s.slots[w].taskId]), s.slots[w].pc)) else None
  }

  /** An action of something else than the thread. */
  predicate Spares(th: Thread, a: Action) {
    match a
    case Begin(k, _, _) => th != CallOf(k)
    case RunCall(k, _) => th != CallOf(k)
    case Issue(k) => th != CallOf(k)
    case Abandon(k) => th != CallOf(k)
    case Deliver(_, w) => th != SlotOf(w)
    case RunSlot(w, _) => th != SlotOf(w)
    case Return(w, _) => th != SlotOf(w)
    case Crash => false
    case _ => true
  }

  /** One statement of a thread, and the actions of everything else up to its next. */
  datatype Turn = Turn(now: Time, others: seq<Action>)

  predicate Fair(th: Thread, turns: seq<Turn>) {
    forall i, j :: 0 <= i < |turns| && 0 <= j < |turns[i].others| ==> Spares(th, turns[i].others[j])
  }

  /** The next action of a thread; a call that holds tokens to issue issues them. */
  function NextAction(s: State, th: Thread, now: Time): Action {
    match th
    case CallOf(k) => if k in s.calls && s.calls[k].pc.Authenticated? then Issue(k) else RunCall(k, now)
    case SlotOf(w) => RunSlot(w, now)
  }

  ghost function Own(c: Config, s: State, th: Thread, now: Time): State {
    Step(c, s, NextAction(s, th, now))
  }

  ghost function Taken(c: Config, s: State, th: Thread, turns: seq<Turn>): State {
    if turns == [] then s else
    var n := |turns| - 1;
    Exec(c, Own(c, Taken(c, s, th, turns[..n]), th, turns[n].now), turns[n].others)
  }

  ghost function ScheduleOf(c: Config, s: State, th: Thread, turns: seq<Turn>): Schedule {
    Schedule(seq(|turns|, i requires 0 <= i < |turns| => Gap(turns[i].now, Taken(c, s, th, turns[..i + 1]).db)), 0)
  }

  lemma SparedByStep(c: Config, s: State, th: Thread, a: Action)
    requires At(s, th).Some? && Spares(th, a)
    ensures At(Step(c, s, a), th) == At(s, th)
  {
  }

  lemma {:induction false} SparedThread(c: Config, s: State, th: Thread, actions: seq<Action>)
    requires At(s, th).Some? && forall j :: 0 <= j < |actions| ==> Spares(th, actions[j])
    ensures At(Exec(c, s, actions), th) == At(s, th)
  {
    if actions != [] {
      var n := |actions| - 1;
      SparedThread(c, s, th, actions[..n]);
      SparedByStep(c, Exec(c, s, actions[..n]), th, actions[n]);
    }
  }

  lemma OwnIssue(c: Config, s: State, k: nat, now: Time)
    requires k in s.calls && s.calls[k].pc.Authenticated? && Session(s.calls[k].request)
    ensures Own(c, s, CallOf(k), now).db == s.db
    ensures Advance(s.calls[k].request, s.calls[k].pc, s.db, now).1 == s.db
    ensures Own(c, s, CallOf(k), now).calls ==
            s.calls[k := Call(s.calls[k].request, Advance(s.calls[k].request, s.calls[k].pc, s.db, now).0)]
  {
  }

  lemma OwnStatement(c: Config, s: State, k: nat, now: Time)
    requires k in s.calls && !s.calls[k].pc.Finished? && !s.calls[k].pc.Authenticated?
    ensures var (next, left) := Advance(s.calls[k].request, s.calls[k].pc, s.db, now);
      && Own(c, s, CallOf(k), now).db == left
      && Own(c, s, CallOf(k), now).calls == s.calls[k := Call(s.calls[k].request, next)]
      && (next.Authenticated? ==> Session(s.calls[k].request))
  {
  }

  lemma OwnDelivery(c: Config, s: State, w: nat, now: Time)
    requires w in s.slots && s.slots[w].taskId in s.enqueued
    requires !s.slots[w].pc.Finished? && !s.slots[w].pc.Authenticated?
    ensures var q := RequestOf(s.enqueued[s.slots[w].taskId]); var (next, left) := Advance(q, s.slots[w].pc, s.db, now);
      && Own(c, s, SlotOf(w), now).db == left && Own(c, s, SlotOf(w), now).enqueued == s.enqueued
      && Own(c, s, SlotOf(w), now).slots == s.slots[w := Slot(s.slots[w].taskId, next)]
      && !next.Authenticated?
  {
  }

  /** Where an unanswered thread may stand: only the session requests end by issuing tokens. */
  predicate Unanswered(call: Call) {
    !call.pc.Finished? && (call.pc.Authenticated? ==> Session(call.request))
  }

  lemma OwnStep(c: Config, s: State, th: Thread, now: Time)
    requires At(s, th).Some? && Unanswered(At(s, th).value)
    ensures var Call(q, pc) := At(s, th).value; var (next, left) := Advance(q, pc, s.db, now);
      && Own(c, s, th, now).db == left && At(Own(c, s, th, now), th) == Some(Call(q, next))
      && (next.Authenticated? ==> Session(q))
  {
    match th {
      case CallOf(k) =>
        if s.calls[k].pc.Authenticated? {
          OwnIssue(c, s, k, now);
        } else {
          OwnStatement(c, s, k, now);
        }
      case SlotOf(w) =>
        OwnDelivery(c, s, w, now);
    }
  }

  lemma FinishedStutters(c: Config, s: State, th: Thread, now: Time)
    requires At(s, th).Some? && At(s, th).value.pc.Finished?
    ensures Own(c, s, th, now) == s
  {
  }

  /**
   After any number of turns the thread stands where the method stands on the schedule of those turns, and while it is
   unanswered the tables are the same; so the answer it gives is the one the method returns.
   */
  lemma {:induction false} ThreadsFollowSchedules(c: Config, s: State, th: Thread, q: Request, turns: seq<Turn>, n: nat)
    requires At(s, th) == Some(Call(q, Start)) && Fair(th, turns) && n <= |turns|
    ensures var now, (pc, seen) := Taken(c, s, th, turns[..n]), After(q, s.db, ScheduleOf(c, s, th, turns), 0, n);
      && At(now, th) == Some(Call(q, pc))
      && (!pc.Finished? ==> now.db == seen && Unanswered(Call(q, pc)))
  {
    if n > 0 {
      ThreadsFollowSchedules(c, s, th, q, turns, n - 1);
      var before, turn := Taken(c, s, th, turns[..n - 1]), turns[n - 1];
      assert turns[..n][..n - 1] == turns[..n - 1];
      assert forall j :: 0 <= j < |turn.others| ==> Spares(th, turn.others[j]);
      if At(before, th).value.pc.Finished? {
        FinishedStutters(c, before, th, turn.now);
      } else {
        OwnStep(c, before, th, turn.now);
      }
      SparedThread(c, Own(c, before, th, turn.now), th, turn.others);
    }
  }

  /** And its last statement leaves the tables the method leaves. */
  lemma LastStatementLeaves(c: Config, s: State, th: Thread, q: Request, turns: seq<Turn>, n: nat)
    requires At(s, th) == Some(Call(q, Start)) && Fair(th, turns) && n < |turns|
    requires !After(q, s.db, ScheduleOf(c, s, th, turns), 0, n).0.Finished?
    requires After(q, s.db, ScheduleOf(c, s, th, turns), 0, n + 1).0.Finished?
    ensures Own(c, Taken(c, s, th, turns[..n]), th, turns[n].now).db ==
            After(q, s.db, ScheduleOf(c, s, th, turns), 0, n + 1).1
  {
    ThreadsFollowSchedules(c, s, th, q, turns, n);
    OwnStep(c, Taken(c, s, th, turns[..n]), th, turns[n].now);
  }

  /** What a method answers, begun on these tables with this schedule, the thread answers in the interleaving. */
  lemma MethodAnswersAsThread(c: Config, s: State, th: Thread, q: Request, turns: seq<Turn>, u: nat, r: Outcome, left: Db)
    requires At(s, th) == Some(Call(q, Start)) && Fair(th, turns) && u < |turns|
    requires Served(q, s.db, ScheduleOf(c, s, th, turns), 0, u, r, left)
    ensures At(Taken(c, s, th, turns[..u + 1]), th) == Some(Call(q, Finished(r)))
  {
    ThreadsFollowSchedules(c, s, th, q, turns, u + 1);
  }

  lemma {:induction false} TakenConsistent(c: Config, s: State, th: Thread, turns: seq<Turn>)
    requires Consistent(c, s)
    ensures Consistent(c, Taken(c, s, th, turns))
  {
    if turns != [] {
      var n := |turns| - 1;
      TakenConsistent(c, s, th, turns[..n]);
      var before := Taken(c, s, th, turns[..n]);
      StepKeeps(c, before, NextAction(before, th, turns[n].now));
      ExecKeeps(c, Own(c, before, th, turns[n].now), turns[n].others);
    }
  }

  lemma SoundIsUnique(db: Db)
    requires EmailsUnique(db.users) && ProfilesUnique(db.seekers, db.recruiters) && PairsUnique(db.saved)
    ensures KeysUnique(db)
  {
  }

  /** The schedules of reachable interleavings meet what the pool asks of a schedule. */
  lemma SchedulesAreLawful(c: Config, actions: seq<Action>, th: Thread, turns: seq<Turn>)
    ensures KeysUnique(Run(c, actions).db) && Lawful(ScheduleOf(c, Run(c, actions), th, turns))
  {
    EveryRunConsistent(c, actions);
    var s := Run(c, actions);
    SoundIsUnique(s.db);
    forall i | 0 <= i < |turns| ensures KeysUnique(ScheduleOf(c, s, th, turns).gaps[i].found) {
      TakenConsistent(c, s, th, turns[..i + 1]);
      SoundIsUnique(Taken(c, s, th, turns[..i + 1]).db);
    }
  }
}
