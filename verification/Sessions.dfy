/**
 Whom the backend issues tokens to: in every run, exactly the tokens a request answers with, for the user its
 credentials name.
 */
module Sessions {
  import opened Wrappers
  import opened Schema
  import opened Programs
  import opened Stability
  import opened Protocol
  import opened Safety

  /** The request holds, or has answered with, tokens for this user and these roles. */
  predicate Holding(call: Call, u: Id, roles: seq<Role>) {
    call.pc == Authenticated(u, roles) || call.pc == Finished(Success(Tokens(u, roles)))
  }

  /**
   In every run a login is for the user with that email whose stored hash the password opens; a refresh is for the user
   its token names; a signup is for the user with its email and hash; an upgrade is for its caller, with both roles.
   */
  lemma TokensNameTheirUser(c: Config, actions: seq<Action>, k: nat, u: Id, roles: seq<Role>)
    requires k in Run(c, actions).calls && Holding(Run(c, actions).calls[k], u, roles)
    ensures var s := Run(c, actions); var q := s.calls[k].request;
      && u in s.db.users && roles != [] && roles <= s.db.users[u].roles
      && (q.Login? ==> s.db.users[u].email == q.email && s.db.users[u].password in q.opens)
      && (q.Refresh? ==> u == q.userId)
      && (q.Signup? ==> s.db.users[u].email == q.email && q.hash == Some(s.db.users[u].password))
      && (q.Upgrade? ==> u == q.userId && roles == [JobSeeker, Recruiter])
      && (q.Login? || q.Refresh? || q.Signup? || q.Upgrade?)
  {
    CallsInRuns(c, actions);
    assert CallOk(Run(c, actions).db, Run(c, actions).calls[k]);
  }

  // ---- Tokens answered are tokens issued ----

  ghost predicate Issued(c: Config, issued: set<Token>, call: Call) {
    call.pc.Finished? && call.pc.outcome.Success? && call.pc.outcome.value.Tokens? ==>
      var Tokens(u, roles) := call.pc.outcome.value;
      Token(u, roles, c.accessSecret) in issued && Token(u, roles, c.refreshSecret) in issued
  }

  ghost predicate AllIssued(c: Config, s: State) {
    forall k :: k in s.calls ==> Issued(c, s.issued, s.calls[k])
  }

  lemma StatementsIssueNothing(q: Request, pc: Pc, db: Db, now: Time)
    requires !pc.Authenticated? && !pc.Finished?
    ensures var next := Advance(q, pc, db, now).0;
      next.Finished? && next.outcome.Success? ==> !next.outcome.value.Tokens?
  {
  }

  lemma RunCallIssued(c: Config, s: State, k: nat, now: Time)
    requires AllIssued(c, s) && k in s.calls && !s.calls[k].pc.Authenticated? && !s.calls[k].pc.Finished?
    ensures AllIssued(c, DoRunCall(s, k, now))
  {
    StatementsIssueNothing(s.calls[k].request, s.calls[k].pc, s.db, now);
  }

  lemma OtherIssued(c: Config, s: State, a: Action)
    requires AllIssued(c, s) && Enabled(c, s, a) && !a.RunCall?
    ensures AllIssued(c, Do(c, s, a))
  {
  }

  /** No step but Issue makes a token, and Issue makes the pair its request holds. */
  lemma IssueIsExact(c: Config, s: State, a: Action)
    ensures Step(c, s, a).issued ==
      if a.Issue? && a.call in s.calls && s.calls[a.call].pc.Authenticated? then
        var Authenticated(u, roles) := s.calls[a.call].pc;
        s.issued + {Token(u, roles, c.accessSecret), Token(u, roles, c.refreshSecret)}
      else s.issued
  {
  }

  /** In every run a request that answered with tokens had both of them issued, with those very roles. */
  lemma {:induction false} AnswersAreIssued(c: Config, actions: seq<Action>)
    ensures AllIssued(c, Run(c, actions))
  {
    if actions != [] {
      var n := |actions| - 1;
      AnswersAreIssued(c, actions[..n]);
      var s, a := Run(c, actions[..n]), actions[n];
      if Enabled(c, s, a) {
        if a.RunCall? {
          RunCallIssued(c, s, a.call, a.now);
        } else {
          OtherIssued(c, s, a);
        }
      }
    }
  }

  // ---- Requests in flight were let in ----

  /**
   A request behind a role gate was begun with an issued access token of its own user that carries the role, and a
   refresh with an issued refresh token of its own user.
   */
  ghost predicate LetIn(c: Config, issued: set<Token>, call: Call) {
    && (AsRecruiter(call.request) || AsSeeker(call.request) ==>
          exists t :: t in issued && t.secret == c.accessSecret && t.userId == call.request.userId
                      && (if AsRecruiter(call.request) then Recruiter else JobSeeker) in t.roles)
    && (call.request.Refresh? ==>
          exists t :: t in issued && t.secret == c.refreshSecret && t.userId == call.request.userId)
  }

  ghost predicate AllLetIn(c: Config, s: State) {
    forall k :: k in s.calls ==> LetIn(c, s.issued, s.calls[k])
  }

  lemma BeginLetsIn(c: Config, s: State, k: nat, q: Request, token: Option<Token>)
    requires MayBegin(c, s, q, token)
    ensures LetIn(c, s.issued, Call(q, Start))
  {
  }

  lemma LetInForever(c: Config, issued: set<Token>, more: set<Token>, call: Call, pc: Pc)
    requires issued <= more && LetIn(c, issued, call)
    ensures LetIn(c, more, Call(call.request, pc))
  {
  }

  lemma StepLetsIn(c: Config, s: State, a: Action, k: nat)
    requires AllLetIn(c, s) && k in Step(c, s, a).calls
    ensures LetIn(c, Step(c, s, a).issued, Step(c, s, a).calls[k])
  {
    IssueIsExact(c, s, a);
    if a.Begin? && a.call == k && Enabled(c, s, a) {
      BeginLetsIn(c, s, k, a.request, a.token);
    } else {
      assert k in s.calls && Step(c, s, a).calls[k].request == s.calls[k].request;
      LetInForever(c, s.issued, Step(c, s, a).issued, s.calls[k], Step(c, s, a).calls[k].pc);
    }
  }

  /** In every run each request in flight behind a gate acts for the user of an issued token that opens that gate. */
  lemma {:induction false} EveryCallWasLetIn(c: Config, actions: seq<Action>)
    ensures AllLetIn(c, Run(c, actions))
  {
    if actions != [] {
      var n := |actions| - 1;
      EveryCallWasLetIn(c, actions[..n]);
      forall k | k in Run(c, actions).calls ensures LetIn(c, Run(c, actions).issued, Run(c, actions).calls[k]) {
        StepLetsIn(c, Run(c, actions[..n]), actions[n], k);
      }
    }
  }
}
