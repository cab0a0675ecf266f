/** Signup and upgrade conserve rows, and of the signups racing for one email at most one commits. */
module Signups {
  import opened Errors
  import opened Schema
  import opened Integrity
  import opened Programs
  import opened Stability
  import opened Protocol
  import opened Safety

  ghost predicate AllTaken(db: Db, emails: seq<string>) {
    forall i :: 0 <= i < |emails| ==> EmailTaken(db, emails[i])
  }

  ghost predicate AllListed(users: map<Id, User>, emails: seq<string>) {
    forall u :: u in users ==> users[u].email in emails
  }

  ghost predicate Distinct(emails: seq<string>) {
    forall i, j :: 0 <= i < j < |emails| ==> emails[i] != emails[j]
  }

  ghost predicate Balanced(db: Db, past: History) {
    && |db.users| == |past.emails| == past.seekerSignups + past.recruiterSignups
    && |db.seekers| == past.seekerSignups
    && |db.recruiters| == past.recruiterSignups + past.upgrades
  }

  ghost predicate Booked(db: Db, past: History) {
    AllTaken(db, past.emails) && AllListed(db.users, past.emails) && Distinct(past.emails) && Balanced(db, past)
  }

  predicate AccountTablesSame(a: Db, b: Db) {
    b.users == a.users && b.seekers == a.seekers && b.recruiters == a.recruiters
  }

  lemma OthersLeaveAccounts(q: Request, pc: Pc, db: Db, now: Time)
    requires !q.Signup? && !q.Upgrade?
    ensures AccountTablesSame(db, Advance(q, pc, db, now).1)
    ensures !Commits(q, pc, Advance(q, pc, db, now).0)
  {
  }

  lemma SameAccountsBooked(a: Db, b: Db, past: History)
    requires Booked(a, past) && AccountTablesSame(a, b)
    ensures Booked(b, past)
  {
    assert forall e :: EmailTaken(b, e) == EmailTaken(a, e);
  }

  lemma SignupBooked(db: Db, past: History, kind: SignupKind, row: User)
    requires Below(db.users, db.nextId) && Below(db.seekers, db.nextId) && Below(db.recruiters, db.nextId)
    requires Booked(db, past) && !EmailTaken(db, row.email)
    ensures var after := SignedUp(db, kind, row);
      var more := past.(emails := past.emails + [row.email]);
      Booked(after, if kind.SeekerSignup? then more.(seekerSignups := past.seekerSignups + 1)
                    else more.(recruiterSignups := past.recruiterSignups + 1))
  {
    assert db.nextId !in db.users && db.nextId + 1 !in db.seekers && db.nextId + 1 !in db.recruiters;
    EmailBooked(db, SignedUp(db, kind, row), past.emails, db.nextId, row);
  }

  lemma EmailBooked(db: Db, after: Db, emails: seq<string>, id: Id, row: User)
    requires id !in db.users && after.users == db.users[id := row] && !EmailTaken(db, row.email)
    requires AllTaken(db, emails) && AllListed(db.users, emails) && Distinct(emails)
    ensures var more := emails + [row.email]; AllTaken(after, more) && AllListed(after.users, more) && Distinct(more)
  {
    var more := emails + [row.email];
    forall i | 0 <= i < |more| ensures EmailTaken(after, more[i]) {
      if i < |emails| {
        assert EmailTaken(db, emails[i]);
        var u :| u in db.users && db.users[u].email == emails[i];
        assert after.users[u].email == more[i];
      } else {
        assert after.users[id].email == more[i];
      }
    }
    forall u | u in after.users ensures after.users[u].email in more {
      if u != id {
        assert db.users[u].email in emails;
      }
    }
  }

  lemma UpgradeBooked(db: Db, past: History, u: Id, roles: seq<Role>, company: Company, now: Time)
    requires u in db.users && Below(db.recruiters, db.nextId) && Booked(db, past)
    ensures Booked(Upgraded(db, u, roles, company, now), past.(upgrades := past.upgrades + 1))
  {
    var after := Upgraded(db, u, roles, company, now);
    assert db.nextId !in db.recruiters;
    forall i | 0 <= i < |past.emails| ensures EmailTaken(after, past.emails[i]) {
      assert EmailTaken(db, past.emails[i]);
      var v :| v in db.users && db.users[v].email == past.emails[i];
      assert after.users[v].email == past.emails[i];
    }
  }

  lemma SignupCallBooked(q: Request, pc: Pc, db: Db, past: History, now: Time)
    requires q.Signup? && ProfilesLinked(db.users, db.seekers, db.recruiters) && Booked(db, past)
    requires Below(db.users, db.nextId) && Below(db.seekers, db.nextId) && Below(db.recruiters, db.nextId)
    ensures var (next, after) := SignupStep(q, pc, db, now); Booked(after, Record(past, q, pc, next))
  {
    SignupEffect(q, pc, db, now);
    if SignupCommits(q, pc, EmailTaken(db, q.email)) {
      SignupBooked(db, past, q.kind, SignupRow(q.kind, q.name, q.email, q.hash.value, now));
    } else {
      assert Record(past, q, pc, SignupStep(q, pc, db, now).0) == past;
    }
  }

  lemma UpgradeCallBooked(q: Request, pc: Pc, db: Db, past: History, now: Time)
    requires q.Upgrade? && q.userId in db.users && Below(db.recruiters, db.nextId) && Booked(db, past)
    ensures var (next, after) := UpgradeStep(q, pc, db, now); Booked(after, Record(past, q, pc, next))
  {
    if pc.RolesRead? {
      UpgradeWrites(db, q.userId, pc.roles + [Recruiter], q.company, now);
      if !HasRecruiter(db, q.userId) {
        UpgradeBooked(db, past, q.userId, pc.roles + [Recruiter], q.company, now);
      }
    }
  }

  lemma OtherBooked(q: Request, pc: Pc, db: Db, past: History, now: Time)
    requires !q.Signup? && !q.Upgrade? && Booked(db, past)
    ensures var (next, after) := Advance(q, pc, db, now);
      Booked(after, past) && Record(past, q, pc, next) == past
  {
    OthersLeaveAccounts(q, pc, db, now);
    SameAccountsBooked(db, Advance(q, pc, db, now).1, past);
  }

  lemma CallBooked(q: Request, pc: Pc, db: Db, past: History, now: Time)
    requires AccountsSound(db) && Admitted(db, q) && Booked(db, past)
    ensures var (next, after) := Advance(q, pc, db, now); Booked(after, Record(past, q, pc, next))
  {
    if q.Signup? {
      SignupCallBooked(q, pc, db, past, now);
    } else if q.Upgrade? {
      UpgradeCallBooked(q, pc, db, past, now);
    } else {
      OtherBooked(q, pc, db, past, now);
    }
  }

  lemma OtherStepsBookNothing(c: Config, s: State, a: Action)
    requires !a.RunCall? && !a.RunSlot?
    ensures Step(c, s, a).db == s.db && Step(c, s, a).past == s.past
  {
  }

  lemma StepBooked(c: Config, s: State, a: Action)
    requires AccountsSound(s.db) && CallsOk(s.db, s.calls) && Booked(s.db, s.past)
    ensures Booked(Step(c, s, a).db, Step(c, s, a).past)
  {
    if a.RunCall? {
      if Enabled(c, s, a) {
        RunCallBooked(s, a.call, a.now);
      }
    } else if a.RunSlot? {
      if Enabled(c, s, a) {
        RunSlotBooked(s, a.slot, a.now);
      }
    } else {
      OtherStepsBookNothing(c, s, a);
    }
  }

  lemma RunCallBooked(s: State, k: nat, now: Time)
    requires AccountsSound(s.db) && k in s.calls && CallOk(s.db, s.calls[k]) && Booked(s.db, s.past)
    ensures Booked(DoRunCall(s, k, now).db, DoRunCall(s, k, now).past)
  {
    CallBooked(s.calls[k].request, s.calls[k].pc, s.db, s.past, now);
  }

  lemma RunSlotBooked(s: State, w: nat, now: Time)
    requires w in s.slots && s.slots[w].taskId in s.enqueued && Booked(s.db, s.past)
    ensures Booked(DoRunSlot(s, w, now).db, DoRunSlot(s, w, now).past)
  {
    OtherBooked(RequestOf(s.enqueued[s.slots[w].taskId]), s.slots[w].pc, s.db, s.past, now);
  }

  /**
   In every state: users equal committed signups, seeker profiles equal committed seeker signups, recruiter profiles
   equal committed recruiter signups plus upgrades, and no email was committed twice.
   */
  lemma {:induction false} SignupsConserveRows(c: Config, actions: seq<Action>)
    ensures Booked(Run(c, actions).db, Run(c, actions).past)
  {
    if actions != [] {
      var n := |actions| - 1;
      SignupsConserveRows(c, actions[..n]);
      CallsInRuns(c, actions[..n]);
      TablesInRuns(c, actions[..n]);
      StepBooked(c, Run(c, actions[..n]), actions[n]);
    }
  }

  /**
   Of any number of signups with usable input racing for one email, one that does not commit ends in status 409,
   whether the email check or the unique key stopped it, and the email is taken.
   */
  lemma LosersGetConflict(c: Config, actions: seq<Action>, k: nat)
    requires k in Run(c, actions).calls
    requires var call := Run(c, actions).calls[k];
      && call.request.Signup? && call.pc.Finished?
      && call.request.email != "" && call.request.password != "" && call.request.hash.Some?
    ensures var s := Run(c, actions); var o := s.calls[k].pc.outcome;
      o.Success? || (Classify(o.error) == 409 && EmailTaken(s.db, s.calls[k].request.email))
  {
    CallsInRuns(c, actions);
    assert CallOk(Run(c, actions).db, Run(c, actions).calls[k]);
  }

  /** An upgrade that does not commit ends in status 409 and the user has a recruiter profile. */
  lemma FailedUpgradeMeansRecruiter(c: Config, actions: seq<Action>, k: nat)
    requires k in Run(c, actions).calls
    requires Run(c, actions).calls[k].request.Upgrade? && Run(c, actions).calls[k].pc.Finished?
    requires Run(c, actions).calls[k].pc.outcome.Failure?
    ensures var s := Run(c, actions);
      Classify(s.calls[k].pc.outcome.error) == 409 && HasRecruiter(s.db, s.calls[k].request.userId)
  {
    CallsInRuns(c, actions);
    assert CallOk(Run(c, actions).db, Run(c, actions).calls[k]);
  }
}
