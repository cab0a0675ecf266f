/**
 The queue client and the worker's handlers (internal/queue). asynq itself, which stores, delivers and retries tasks,
 is the Protocol's Deliver, Return, Recover and Expire.
 */
module Worker {
  import opened Wrappers
  import opened Errors
  import opened Schema
  import opened Programs
  import opened Protocol
  import opened Serving
  import opened Services

  class Client {
    var tasks: map<nat, Task>
    var enqueued: map<nat, Payload>
    var nextTask: nat

    ghost predicate Valid()
      reads this
    {
      tasks.Keys <= enqueued.Keys && forall t :: t in enqueued ==> t < nextTask
    }

    constructor ()
      ensures Valid() && tasks == map[] && enqueued == map[]
    {
      tasks, enqueued, nextTask := map[], map[], 0;
    }

    method EnqueueApplyToJob(userId: Id, jobId: Id, coverLetter: string) returns (task: nat)
      requires Valid()
      modifies this
      ensures Valid() && task !in old(enqueued)
      ensures forall c: Config, s: State, token: Token ::
        s.tasks == old(tasks) && s.enqueued == old(enqueued) && Gate(c, s, token, JobSeeker) && token.userId == userId ==>
          Step(c, s, Enqueue(task, Payload.ApplyToJob(userId, jobId, coverLetter), token)) ==
          s.(tasks := tasks, enqueued := enqueued)
    {
      task := nextTask;
      nextTask := nextTask + 1;
      tasks := tasks[task := Task(Pending, 0, None)];
      enqueued := enqueued[task := Payload.ApplyToJob(userId, jobId, coverLetter)];
    }

    method EnqueueSaveJob(userId: Id, jobId: Id) returns (task: nat)
      requires Valid()
      modifies this
      ensures Valid() && task !in old(enqueued)
      ensures forall c: Config, s: State, token: Token ::
        s.tasks == old(tasks) && s.enqueued == old(enqueued) && Gate(c, s, token, JobSeeker) && token.userId == userId ==>
          Step(c, s, Enqueue(task, Payload.SaveJob(userId, jobId), token)) == s.(tasks := tasks, enqueued := enqueued)
    {
      task := nextTask;
      nextTask := nextTask + 1;
      tasks := tasks[task := Task(Pending, 0, None)];
      enqueued := enqueued[task := Payload.SaveJob(userId, jobId)];
    }
  }

  /** One delivery of a task; `result` is what the handler's ResultWriter wrote. */
  class Delivery {
    const payload: Payload
    var result: Option<Id>

    constructor (payload: Payload)
      ensures this.payload == payload && result == None
    {
      this.payload, result := payload, None;
    }
  }

  /** The outcome a handler reports: no error and the row it wrote, or the service's error and nothing written. */
  ghost predicate Reports(err: Option<Error>, result: Option<Id>, r: Outcome) {
    match r
    case Success(v) => v.Row? && err == None && result == Some(v.id)
    case Failure(e) => err == Some(e) && result == None
  }

  class WorkerServer {
    const svc: JobSeekerService

    constructor (svc: JobSeekerService)
      ensures this.svc == svc
    {
      this.svc := svc;
    }

    method ApplyHandler(t: Delivery) returns (err: Option<Error>, ghost r: Outcome)
      requires svc.pool.Valid() && t.payload.ApplyToJob? && t.result == None
      modifies svc.pool, t
      ensures svc.pool.Valid() && Reports(err, t.result, r)
      ensures var pool := svc.pool;
        Served(RequestOf(t.payload), old(pool.tables), pool.others, old(pool.tick), pool.tick, r, pool.tables)
    {
      var app := svc.ApplyToJob(t.payload.userId, t.payload.jobId, t.payload.coverLetter);
      r := app;
      if app.Failure? {
        return Some(app.error), r;
      }
      t.result := Some(app.value.id);
      err := None;
    }

    method SaveHandler(t: Delivery) returns (err: Option<Error>, ghost r: Outcome)
      requires svc.pool.Valid() && t.payload.SaveJob? && t.result == None
      modifies svc.pool, t
      ensures svc.pool.Valid() && Reports(err, t.result, r)
      ensures var pool := svc.pool;
        Served(RequestOf(t.payload), old(pool.tables), pool.others, old(pool.tick), pool.tick, r, pool.tables)
    {
      var savedJob := svc.SaveJob(t.payload.userId, t.payload.jobId);
      r := savedJob;
      if savedJob.Failure? {
        return Some(savedJob.error), r;
      }
      t.result := Some(savedJob.value.id);
      err := None;
    }

    /** The mux: each task type goes to its handler. */
    method Process(t: Delivery) returns (err: Option<Error>, ghost r: Outcome)
      requires svc.pool.Valid() && t.result == None
      modifies svc.pool, t
      ensures svc.pool.Valid() && Reports(err, t.result, r)
      ensures var pool := svc.pool;
        Served(RequestOf(t.payload), old(pool.tables), pool.others, old(pool.tick), pool.tick, r, pool.tables)
      ensures forall task: Task, again: bool :: task.state.Active? && task.result.None? ==>
        Returned(task, r, again) ==
        if err.None? then task.(state := Completed, result := t.result) else Failed(task, again)
    {
      if t.payload.ApplyToJob? {
        err, r := ApplyHandler(t);
      } else {
        err, r := SaveHandler(t);
      }
    }
  }
}
