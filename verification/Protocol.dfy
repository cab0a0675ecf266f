/**
 The whole backend as a state machine: HTTP requests in flight, the worker's slots, the task queue and the
 tables. Each action is one step of one of them, so a sequence of actions is one interleaving of any number
 of requests, deliveries, retries and crashes.
 */
module Protocol {
  import opened Wrappers
  import opened Schema
  import opened Programs

  datatype Config = Config(concurrency: nat, accessSecret: string, refreshSecret: string)

  /** A JWT: its claims and the secret it is signed with. Only `Issue` makes one. */
  datatype Token = Token(userId: Id, roles: seq<Role>, secret: string)

  datatype Payload =
    | ApplyToJob(userId: Id, jobId: Id, coverLetter: string)
    | SaveJob(userId: Id, jobId: Id)

  datatype TaskState = Pending | Active | Scheduled | Retry | Archived | Completed

  datatype Task = Task(state: TaskState, retried: nat, result: Option<Id>)

  /** An HTTP request in flight. */
  datatype Call = Call(request: Request, pc: Pc)

  /** A worker slot running the handler of a task. */
  datatype Slot = Slot(taskId: nat, pc: Pc)

  /** History: the task whose delivery inserted an application row, when, and the row as inserted. */
  datatype Birth = Birth(taskId: nat, at: Time, row: Application)

  /** History: what the last review that wrote an application asked for, and when. */
  datatype Reviewed = Reviewed(status: Status, at: Time)

  /** History: a delivery of the task ran its upsert of saved_jobs and got this row back. */
  datatype Upsert = Upsert(taskId: nat, rowId: Id)

  /**
   What has happened so far; no step reads it. `births` and `kept` hold every application and saved row ever
   inserted, `upserts` every upsert that returned a row, `reviews` the last review of every application that was ever
   reviewed, `emails` the address of every committed signup in order.
   */
  datatype History = History(births: map<Id, Birth>, kept: map<Id, SavedJob>, upserts: set<Upsert>,
                             reviews: map<Id, Reviewed>, emails: seq<string>,
                             seekerSignups: nat, recruiterSignups: nat, upgrades: nat)

  /** `tasks` is what Redis holds now; `enqueued` keeps the payload of every task ever enqueued. */
  datatype State = State(db: Db, issued: set<Token>, calls: map<nat, Call>, slots: map<nat, Slot>,
                         tasks: map<nat, Task>, enqueued: map<nat, Payload>, past: History)

  const INITIAL := State(EMPTY, {}, map[], map[], map[], map[], History(map[], map[], {}, map[], [], 0, 0, 0))

  datatype Action =
    | Begin(call: nat, request: Request, token: Option<Token>)
    | RunCall(call: nat, now: Time)
    | Issue(call: nat)
    | Abandon(call: nat)
    | Enqueue(task: nat, payload: Payload, seeker: Token)
    | Deliver(task: nat, slot: nat)
    | RunSlot(slot: nat, now: Time)
    | Return(slot: nat, again: bool)
    | Recover(task: nat, again: bool)
    | Expire(task: nat)
    | Crash

  // ---- The gate in front of the handlers ----

  function RoleFor(q: Request): Role {
    if q.CreateJob? || q.UpdateJob? || q.RemoveJob? || q.Review? then Recruiter else JobSeeker
  }

  /** RequireAuth and then AuthorizeRoles(role) let a request with this token through. */
  predicate Gate(c: Config, s: State, token: Token, role: Role) {
    token in s.issued && token.secret == c.accessSecret && role in token.roles
  }

  predicate MayBegin(c: Config, s: State, q: Request, token: Option<Token>) {
    match q
    case Signup(_, _, _, _, _) => true
    case Login(_, _, _) => true
    case Refresh(u) =>
      token.Some? && token.value in s.issued && token.value.secret == c.refreshSecret && token.value.userId == u
    case Apply(_, _, _) => false
    case Save(_, _) => false
    case _ => token.Some? && Gate(c, s, token.value, RoleFor(q)) && token.value.userId == q.userId
  }

  function RequestOf(p: Payload): Request {
    match p
    case ApplyToJob(u, j, letter) => Apply(u, j, letter)
    case SaveJob(u, j) => Save(u, j)
  }

  predicate Enabled(c: Config, s: State, a: Action) {
    match a
    case Begin(k, q, token) => k !in s.calls && MayBegin(c, s, q, token)
    case RunCall(k, _) => k in s.calls && !s.calls[k].pc.Authenticated? && !s.calls[k].pc.Finished?
    case Issue(k) => k in s.calls && s.calls[k].pc.Authenticated?
    case Abandon(k) => k in s.calls
    case Enqueue(t, p, token) => t !in s.enqueued && Gate(c, s, token, JobSeeker) && token.userId == p.userId
    case Deliver(t, w) =>
      && t in s.tasks && (s.tasks[t].state.Pending? || s.tasks[t].state.Retry?) && t in s.enqueued
      && w < c.concurrency && w !in s.slots
    case RunSlot(w, _) => w in s.slots && !s.slots[w].pc.Finished? && s.slots[w].taskId in s.enqueued
    case Return(w, _) => w in s.slots && s.slots[w].pc.Finished?
    case Recover(t, _) => t in s.tasks && s.tasks[t].state.Active?
    case Expire(t) => t in s.tasks && (s.tasks[t].state.Completed? || s.tasks[t].state.Archived?)
    case Crash => true
  }

  /** A signup or upgrade statement that committed its transaction. */
  predicate Commits(q: Request, pc: Pc, next: Pc) {
    next.Authenticated? && ((q.Signup? && pc.EmailFree?) || (q.Upgrade? && pc.RolesRead?))
  }

  /** The history with a committed signup or upgrade added. */
  function Record(h: History, q: Request, pc: Pc, next: Pc): History {
    if !Commits(q, pc, next) then h
    else if q.Upgrade? then h.(upgrades := h.upgrades + 1)
    else if q.kind.SeekerSignup? then h.(emails := h.emails + [q.email], seekerSignups := h.seekerSignups + 1)
    else h.(emails := h.emails + [q.email], recruiterSignups := h.recruiterSignups + 1)
  }

  /** The history with the write of a review added. */
  function RecordReview(h: History, q: Request, pc: Pc, db: Db, now: Time): History {
    if q.Review? && pc.Checked? && q.applicationId in db.applications
    then h.(reviews := h.reviews[q.applicationId := Reviewed(q.status, now)]) else h
  }

  ghost function DoRunCall(s: State, k: nat, now: Time): State
    requires k in s.calls
  {
    var Call(q, pc) := s.calls[k];
    var (next, after) := Advance(q, pc, s.db, now);
    s.(db := after, calls := s.calls[k := Call(q, next)], past := RecordReview(Record(s.past, q, pc, next), q, pc, s.db, now))
  }

  function DoIssue(c: Config, s: State, k: nat): State
    requires k in s.calls && s.calls[k].pc.Authenticated?
  {
    var Call(q, pc) := s.calls[k];
    s.(calls := s.calls[k := Call(q, Finished(Success(Tokens(pc.userId, pc.roles))))],
       issued := s.issued + {Token(pc.userId, pc.roles, c.accessSecret), Token(pc.userId, pc.roles, c.refreshSecret)})
  }

  function NewBirths(before: Db, after: Db, t: nat, now: Time): map<Id, Birth> {
    map a | a in after.applications && a !in before.applications :: Birth(t, now, after.applications[a])
  }

  function NewSaves(before: Db, after: Db): map<Id, SavedJob> {
    map r | r in after.saved && r !in before.saved :: after.saved[r]
  }

  /** The upsert a delivery of task t has just run, if it has. */
  function NewUpserts(q: Request, pc: Pc, next: Pc, t: nat): set<Upsert> {
    if q.Save? && pc.Checked? && next.Finished? && next.outcome.Success? && next.outcome.value.Row?
    then {Upsert(t, next.outcome.value.id)} else {}
  }

  ghost function DoRunSlot(s: State, w: nat, now: Time): State
    requires w in s.slots && s.slots[w].taskId in s.enqueued
  {
    var Slot(t, pc) := s.slots[w];
    var q := RequestOf(s.enqueued[t]);
    var (next, after) := Advance(q, pc, s.db, now);
    var past := s.past.(births := s.past.births + NewBirths(s.db, after, t, now), kept := s.past.kept + NewSaves(s.db, after),
                        upserts := s.past.upserts + NewUpserts(q, pc, next, t));
    s.(db := after, slots := s.slots[w := Slot(t, next)], past := past)
  }

  /** A failed or lost delivery: scheduled again, or archived when the retries are used up. */
  function Failed(task: Task, again: bool): Task {
    if again then task.(state := Retry, retried := task.retried + 1) else task.(state := Archived)
  }

  function Returned(task: Task, o: Outcome, again: bool): Task {
    if o.Success? then task.(state := Completed, result := if o.value.Row? then Some(o.value.id) else None)
    else Failed(task, again)
  }

  /** The handler returned: the slot is free, and its task, if still active, changes state. */
  function DoReturn(s: State, w: nat, again: bool): State
    requires w in s.slots && s.slots[w].pc.Finished?
  {
    var Slot(t, pc) := s.slots[w];
    var freed := s.(slots := s.slots - {w});
    if t in s.tasks && s.tasks[t].state.Active? then
      freed.(tasks := s.tasks[t := Returned(s.tasks[t], pc.outcome, again)])
    else freed
  }

  ghost function Do(c: Config, s: State, a: Action): State
    requires Enabled(c, s, a)
  {
    match a
    case Begin(k, q, _) => s.(calls := s.calls[k := Call(q, Start)])
    case RunCall(k, now) => DoRunCall(s, k, now)
    case Issue(k) => DoIssue(c, s, k)
    case Abandon(k) => s.(calls := s.calls - {k})
    case Enqueue(t, p, _) => s.(tasks := s.tasks[t := Task(Pending, 0, None)], enqueued := s.enqueued[t := p])
    case Deliver(t, w) =>
      s.(tasks := s.tasks[t := s.tasks[t].(state := Active)], slots := s.slots[w := Slot(t, Start)])
    case RunSlot(w, now) => DoRunSlot(s, w, now)
    case Return(w, again) => DoReturn(s, w, again)
    case Recover(t, again) => s.(tasks := s.tasks[t := Failed(s.tasks[t], again)])
    case Expire(t) => s.(tasks := s.tasks - {t})
    case Crash => s.(calls := map[], slots := map[])
  }

  /** An action that is not enabled leaves the state as it is. */
  ghost function Step(c: Config, s: State, a: Action): State {
    if Enabled(c, s, a) then Do(c, s, a) else s
  }

  ghost function Exec(c: Config, s: State, actions: seq<Action>): State {
    if actions == [] then s
    else Step(c, Exec(c, s, actions[..|actions| - 1]), actions[|actions| - 1])
  }

  /** The state an interleaving reaches from the empty store. */
  ghost function Run(c: Config, actions: seq<Action>): State {
    Exec(c, INITIAL, actions)
  }

  lemma SlotStep(c: Config, s: State, w: nat, now: Time)
    requires w in s.slots && s.slots[w].taskId in s.enqueued && !s.slots[w].pc.Finished?
    ensures var (next, left) := Advance(RequestOf(s.enqueued[s.slots[w].taskId]), s.slots[w].pc, s.db, now);
      && Step(c, s, RunSlot(w, now)).db == left
      && Step(c, s, RunSlot(w, now)).slots == s.slots[w := Slot(s.slots[w].taskId, next)]
  {
  }

  lemma {:induction false} ExecAppend(c: Config, s: State, xs: seq<Action>, ys: seq<Action>)
    ensures Exec(c, s, xs + ys) == Exec(c, Exec(c, s, xs), ys)
  {
    if ys == [] {
      assert xs + ys == xs;
    } else {
      var n := |ys| - 1;
      assert (xs + ys)[..|xs + ys| - 1] == xs + ys[..n];
      ExecAppend(c, s, xs, ys[..n]);
    }
  }
}
