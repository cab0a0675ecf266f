/**
 The errors the services return and the HTTP status each becomes
 (internal/errors/app_error.go, internal/middleware/error_handler.go).
 */
module Errors {

  /** Every AppError the modelled services construct, by what it says. */
  datatype Reason =
    | CredentialsRequired
    | UserExists
    | HashFailed
    | InvalidLogin
    | AccountDeactivated
    | UserNotFound
    | OnlySeekersUpgrade
    | AlreadyRecruiter
    | NoRecruiterProfile
    | NoSeekerProfile
    | JobNotFound
    | NotJobOwner
    | JobInactive
    | AlreadyApplied
    | ApplicationNotFound
    | NotApplicationOwner
    | SavedJobNotFound
    | MissingAccessToken
    | InvalidAccessToken
    | AccessDenied

  datatype SqlState = UniqueViolation | ForeignKeyViolation | SyntaxError | InvalidOffset

  /** pgx's own errors: no row to scan, or a NULL scanned into a string. Their texts are not validation messages. */
  datatype DriverError = NoRows | NullIntoString

  datatype JwtError = TokenExpired | TokenSignatureInvalid | SignatureInvalid | TokenMalformed

  /** A Go error as `classifyError` sees it: an AppError, a PostgreSQL error, a JWT error, a pgx error or any other text. */
  datatype Error =
    | App(reason: Reason)
    | Pg(state: SqlState)
    | Jwt(kind: JwtError)
    | Driver(cause: DriverError)
    | Other(text: string)

  function ReasonCode(r: Reason): int {
    match r
    case CredentialsRequired => 400
    case UserExists => 409
    case HashFailed => 500
    case InvalidLogin => 401
    case AccountDeactivated => 403
    case UserNotFound => 404
    case OnlySeekersUpgrade => 403
    case AlreadyRecruiter => 409
    case NoRecruiterProfile => 404
    case NoSeekerProfile => 404
    case JobNotFound => 404
    case NotJobOwner => 403
    case JobInactive => 410
    case AlreadyApplied => 409
    case ApplicationNotFound => 404
    case NotApplicationOwner => 403
    case SavedJobNotFound => 404
    case MissingAccessToken => 401
    case InvalidAccessToken => 401
    case AccessDenied => 403
  }

  predicate Contains(text: string, part: string) {
    |part| <= |text| && (text[..|part|] == part || (|text| > 0 && Contains(text[1..], part)))
  }

  function Classify(e: Error): int {
    match e
    case App(r) => ReasonCode(r)
    case Pg(UniqueViolation) => 409
    case Jwt(_) => 401
    case Other(text) => if Contains(text, "Key:") && Contains(text, "Error:") then 400 else 500
    case Pg(_) => 500
    case Driver(_) => 500
  }

  /** The errors a client sees as 409. */
  lemma ConflictIff(e: Error)
    ensures Classify(e) == 409 <==> e in {App(UserExists), App(AlreadyRecruiter), App(AlreadyApplied), Pg(UniqueViolation)}
  {
  }

  /** Which errors become each of the other statuses; any other error is 500. */
  lemma StatusIff(e: Error)
    ensures Classify(e) == 400 <==>
      e == App(CredentialsRequired) || (e.Other? && Contains(e.text, "Key:") && Contains(e.text, "Error:"))
    ensures Classify(e) == 401 <==> e.Jwt? || e in {App(InvalidLogin), App(MissingAccessToken), App(InvalidAccessToken)}
    ensures Classify(e) == 403 <==>
      e in {App(AccountDeactivated), App(OnlySeekersUpgrade), App(NotJobOwner), App(NotApplicationOwner), App(AccessDenied)}
    ensures Classify(e) == 404 <==>
      e in {App(UserNotFound), App(NoRecruiterProfile), App(NoSeekerProfile), App(JobNotFound),
            App(ApplicationNotFound), App(SavedJobNotFound)}
    ensures Classify(e) == 410 <==> e == App(JobInactive)
    ensures Classify(e) in {400, 401, 403, 404, 409, 410, 500}
  {
  }

  lemma {:induction false} ContainsWhere(text: string, part: string) returns (before: string, after: string)
    requires Contains(text, part)
    ensures text == before + part + after
  {
    if text[..|part|] == part {
      before, after := "", text[|part|..];
    } else {
      before, after := ContainsWhere(text[1..], part);
      before := [text[0]] + before;
    }
  }

  lemma {:induction false} ContainedAnywhere(before: string, part: string, after: string)
    ensures Contains(before + part + after, part)
  {
    if before != "" {
      ContainedAnywhere(before[1..], part, after);
      assert (before + part + after)[1..] == before[1..] + part + after;
    } else {
      assert (before + part + after)[..|part|] == part;
    }
  }

  /** strings.Contains is the substring relation. */
  lemma ContainsIff(text: string, part: string)
    ensures Contains(text, part) <==> exists before: string, after: string :: text == before + part + after
  {
    if Contains(text, part) {
      var before, after := ContainsWhere(text, part);
    }
    if before: string, after: string :| text == before + part + after {
      ContainedAnywhere(before, part, after);
    }
  }
}
