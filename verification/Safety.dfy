/** What holds in every state of every interleaving, and what that means for the callers. */
module Safety {
  import opened Wrappers
  import opened Schema
  import opened Integrity
  import opened Programs
  import opened Stability
  import opened Protocol

  ghost predicate CallOk(db: Db, call: Call) {
    Admitted(db, call.request) && Holds(db, call.request, call.pc) && !call.request.Apply? && !call.request.Save?
  }

  ghost predicate CallsOk(db: Db, calls: map<nat, Call>) {
    forall k :: k in calls ==> CallOk(db, calls[k])
  }

  ghost predicate SlotOk(db: Db, enqueued: map<nat, Payload>, slot: Slot) {
    && slot.taskId in enqueued
    && Admitted(db, RequestOf(enqueued[slot.taskId])) && Holds(db, RequestOf(enqueued[slot.taskId]), slot.pc)
  }

  ghost predicate SlotsOk(db: Db, enqueued: map<nat, Payload>, slots: map<nat, Slot>) {
    forall w :: w in slots ==> SlotOk(db, enqueued, slots[w])
  }

  /** Every token ever issued carries roles its user still holds. */
  ghost predicate TokenOk(users: map<Id, User>, t: Token) {
    t.userId in users && t.roles <= users[t.userId].roles
  }

  ghost predicate TokensOk(users: map<Id, User>, issued: set<Token>) {
    forall t :: t in issued ==> TokenOk(users, t)
  }

  ghost predicate QueueOk(db: Db, enqueued: map<nat, Payload>) {
    forall t :: t in enqueued ==> HasSeeker(db, enqueued[t].userId)
  }

  ghost predicate Threads(c: Config, s: State) {
    && CallsOk(s.db, s.calls)
    && SlotsOk(s.db, s.enqueued, s.slots)
    && TokensOk(s.db.users, s.issued)
    && QueueOk(s.db, s.enqueued)
    && (forall w :: w in s.slots ==> w < c.concurrency)
    && s.tasks.Keys <= s.enqueued.Keys
  }

  ghost predicate Consistent(c: Config, s: State) {
    Sound(s.db) && Threads(c, s)
  }

  lemma CallsStable(a: Db, b: Db, calls: map<nat, Call>)
    requires Sound(a) && Sound(b) && Evolves(a, b) && CallsOk(a, calls)
    ensures CallsOk(b, calls)
  {
    forall k | k in calls ensures CallOk(b, calls[k]) {
      AdmittedStable(a, b, calls[k].request);
      HoldsStable(a, b, calls[k].request, calls[k].pc);
    }
  }

  lemma SlotsStable(a: Db, b: Db, enqueued: map<nat, Payload>, slots: map<nat, Slot>)
    requires Sound(a) && Sound(b) && Evolves(a, b) && SlotsOk(a, enqueued, slots)
    ensures SlotsOk(b, enqueued, slots)
  {
    forall w | w in slots ensures SlotOk(b, enqueued, slots[w]) {
      AdmittedStable(a, b, RequestOf(enqueued[slots[w].taskId]));
      HoldsStable(a, b, RequestOf(enqueued[slots[w].taskId]), slots[w].pc);
    }
  }

  lemma GrantsStable(a: Db, b: Db, issued: set<Token>, enqueued: map<nat, Payload>)
    requires AccountsEvolve(a, b) && TokensOk(a.users, issued) && QueueOk(a, enqueued)
    ensures TokensOk(b.users, issued) && QueueOk(b, enqueued)
  {
    forall t | t in issued ensures TokenOk(b.users, t) {
      assert UserKept(a.users[t.userId], b.users[t.userId]);
    }
    forall t | t in enqueued ensures HasSeeker(b, enqueued[t].userId) {
      AdmittedStable(a, b, RequestOf(enqueued[t]));
    }
  }

  /** A role in a token means the profile row that role's methods look up. */
  lemma RoleMeansProfile(db: Db, t: Token)
    requires RolesMatch(db.users, db.seekers, db.recruiters) && TokenOk(db.users, t)
    ensures JobSeeker in t.roles ==> HasSeeker(db, t.userId)
    ensures Recruiter in t.roles ==> HasRecruiter(db, t.userId)
  {
    var roles := db.users[t.userId].roles;
    assert forall r :: r in t.roles ==> r in roles;
  }

  lemma BeginKeeps(c: Config, s: State, k: nat, q: Request, token: Option<Token>)
    requires RolesMatch(s.db.users, s.db.seekers, s.db.recruiters)
    requires TokensOk(s.db.users, s.issued) && MayBegin(c, s, q, token)
    ensures CallOk(s.db, Call(q, Start))
  {
    if token.Some? && token.value in s.issued {
      RoleMeansProfile(s.db, token.value);
    }
  }

  lemma CallAdvances(s: State, k: nat, now: Time)
    requires Sound(s.db) && k in s.calls && CallOk(s.db, s.calls[k])
    ensures var Call(q, pc) := s.calls[k]; var (next, after) := Advance(q, pc, s.db, now);
      Sound(after) && Evolves(s.db, after) && CallOk(after, Call(q, next))
  {
    AdvanceKeeps(s.calls[k].request, s.calls[k].pc, s.db, now);
    AdmittedStable(s.db, Advance(s.calls[k].request, s.calls[k].pc, s.db, now).1, s.calls[k].request);
  }

  lemma SlotAdvances(s: State, w: nat, now: Time)
    requires Sound(s.db) && w in s.slots && SlotOk(s.db, s.enqueued, s.slots[w])
    ensures var Slot(t, pc) := s.slots[w]; var (next, after) := Advance(RequestOf(s.enqueued[t]), pc, s.db, now);
      Sound(after) && Evolves(s.db, after) && SlotOk(after, s.enqueued, Slot(t, next))
  {
    var q := RequestOf(s.enqueued[s.slots[w].taskId]);
    AdvanceKeeps(q, s.slots[w].pc, s.db, now);
    AdmittedStable(s.db, Advance(q, s.slots[w].pc, s.db, now).1, q);
  }

  /** The tables move under every call, slot, token and queued task at once. */
  lemma ThreadsStable(c: Config, s: State, after: Db)
    requires Consistent(c, s) && Sound(after) && Evolves(s.db, after)
    ensures Threads(c, s.(db := after))
  {
    CallsStable(s.db, after, s.calls);
    SlotsStable(s.db, after, s.enqueued, s.slots);
    GrantsStable(s.db, after, s.issued, s.enqueued);
  }

  lemma CallReplaced(c: Config, s: State, k: nat, call: Call)
    requires Threads(c, s) && CallOk(s.db, call)
    ensures Threads(c, s.(calls := s.calls[k := call]))
  {
  }

  lemma SlotReplaced(c: Config, s: State, w: nat, slot: Slot)
    requires Threads(c, s) && SlotOk(s.db, s.enqueued, slot) && w < c.concurrency
    ensures Threads(c, s.(slots := s.slots[w := slot]))
  {
  }

  lemma HistoryIrrelevant(c: Config, s: State, past: History)
    requires Threads(c, s)
    ensures Threads(c, s.(past := past))
  {
  }

  lemma RunCallKeeps(c: Config, s: State, k: nat, now: Time)
    requires Consistent(c, s) && k in s.calls
    ensures Threads(c, DoRunCall(s, k, now))
  {
    var Call(q, pc) := s.calls[k];
    var (next, after) := Advance(q, pc, s.db, now);
    CallAdvances(s, k, now);
    ThreadsStable(c, s, after);
    CallReplaced(c, s.(db := after), k, Call(q, next));
    HistoryIrrelevant(c, s.(db := after, calls := s.calls[k := Call(q, next)]), DoRunCall(s, k, now).past);
  }

  lemma RunSlotKeeps(c: Config, s: State, w: nat, now: Time)
    requires Consistent(c, s) && w in s.slots && s.slots[w].taskId in s.enqueued
    ensures Threads(c, DoRunSlot(s, w, now))
  {
    var Slot(t, pc) := s.slots[w];
    var (next, after) := Advance(RequestOf(s.enqueued[t]), pc, s.db, now);
    SlotAdvances(s, w, now);
    ThreadsStable(c, s, after);
    SlotReplaced(c, s.(db := after), w, Slot(t, next));
    HistoryIrrelevant(c, s.(db := after, slots := s.slots[w := Slot(t, next)]), DoRunSlot(s, w, now).past);
  }

  lemma IssueKeeps(c: Config, s: State, k: nat)
    requires Threads(c, s) && Enabled(c, s, Issue(k))
    ensures Threads(c, DoIssue(c, s, k))
  {
    assert CallOk(s.db, s.calls[k]);
  }

  lemma EnqueueKeeps(c: Config, s: State, t: nat, p: Payload)
    requires HasSeeker(s.db, p.userId) && Threads(c, s) && t !in s.enqueued
    ensures Threads(c, s.(tasks := s.tasks[t := Task(Pending, 0, None)], enqueued := s.enqueued[t := p]))
  {
  }

  lemma DeliverKeeps(c: Config, s: State, t: nat, w: nat)
    requires Threads(c, s) && Enabled(c, s, Deliver(t, w))
    ensures Threads(c, Do(c, s, Deliver(t, w)))
  {
    assert HasSeeker(s.db, s.enqueued[t].userId);
    SlotReplaced(c, s, w, Slot(t, Start));
  }

  lemma QueueKeeps(c: Config, s: State, a: Action)
    requires Threads(c, s) && Enabled(c, s, a)
    requires a.Return? || a.Recover? || a.Expire? || a.Abandon? || a.Crash?
    ensures Threads(c, Do(c, s, a))
  {
  }

  lemma DoKeeps(c: Config, s: State, a: Action)
    requires Consistent(c, s) && Enabled(c, s, a)
    ensures Threads(c, Do(c, s, a))
  {
    match a {
      case Begin(k, q, token) =>
        BeginKeeps(c, s, k, q, token);
        CallReplaced(c, s, k, Call(q, Start));
      case RunCall(k, now) => RunCallKeeps(c, s, k, now);
      case Issue(k) => IssueKeeps(c, s, k);
      case Enqueue(t, p, token) =>
        RoleMeansProfile(s.db, token);
        EnqueueKeeps(c, s, t, p);
      case Deliver(t, w) => DeliverKeeps(c, s, t, w);
      case RunSlot(w, now) => RunSlotKeeps(c, s, w, now);
      case _ => QueueKeeps(c, s, a);
    }
  }

  /** The tables after a step: written by the statement that ran, or untouched. */
  lemma TablesAfter(c: Config, s: State, a: Action)
    requires Enabled(c, s, a)
    ensures Do(c, s, a).db ==
            if a.RunCall? then Advance(s.calls[a.call].request, s.calls[a.call].pc, s.db, a.now).1
            else if a.RunSlot? then Advance(RequestOf(s.enqueued[s.slots[a.slot].taskId]), s.slots[a.slot].pc, s.db, a.now).1
            else s.db
  {
  }

  lemma TablesKeep(c: Config, s: State, a: Action)
    requires Consistent(c, s) && Enabled(c, s, a)
    ensures Sound(Do(c, s, a).db) && Evolves(s.db, Do(c, s, a).db)
  {
    TablesAfter(c, s, a);
    if a.RunCall? {
      CallAdvances(s, a.call, a.now);
    } else if a.RunSlot? {
      SlotAdvances(s, a.slot, a.now);
    } else {
      EvolvesReflexive(s.db);
    }
  }

  lemma StepKeeps(c: Config, s: State, a: Action)
    requires Consistent(c, s)
    ensures Consistent(c, Step(c, s, a)) && Evolves(s.db, Step(c, s, a).db)
  {
    if Enabled(c, s, a) {
      TablesKeep(c, s, a);
      DoKeeps(c, s, a);
    } else {
      EvolvesReflexive(s.db);
    }
  }

  /** Whatever happens from a consistent state on, the tables only evolve. */
  lemma {:induction false} ExecKeeps(c: Config, s: State, actions: seq<Action>)
    requires Consistent(c, s)
    ensures Consistent(c, Exec(c, s, actions)) && Evolves(s.db, Exec(c, s, actions).db)
  {
    if actions == [] {
      EvolvesReflexive(s.db);
    } else {
      var n := |actions| - 1;
      ExecKeeps(c, s, actions[..n]);
      var t := Exec(c, s, actions[..n]);
      StepKeeps(c, t, actions[n]);
      EvolvesTransitive(s.db, t.db, Step(c, t, actions[n]).db);
    }
  }

  lemma EveryRunConsistent(c: Config, actions: seq<Action>)
    ensures Consistent(c, Run(c, actions))
  {
    EmptySound();
    ExecKeeps(c, INITIAL, actions);
  }

  // ---- The parts of it, for later proofs ----

  lemma TablesInRuns(c: Config, actions: seq<Action>)
    ensures Sound(Run(c, actions).db)
  {
    EveryRunConsistent(c, actions);
  }

  lemma CallsInRuns(c: Config, actions: seq<Action>)
    ensures CallsOk(Run(c, actions).db, Run(c, actions).calls)
  {
    EveryRunConsistent(c, actions);
  }

  lemma SlotsInRuns(c: Config, actions: seq<Action>)
    ensures SlotsOk(Run(c, actions).db, Run(c, actions).enqueued, Run(c, actions).slots)
    ensures forall w :: w in Run(c, actions).slots ==> w < c.concurrency
  {
    EveryRunConsistent(c, actions);
  }
}
