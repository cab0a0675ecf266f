/**
 UpdateJob's dynamic query (internal/services/job.go): a partial request becomes SET text and a positional
 argument list. The text is read back by a small SQL parser and run against the tables, and the result is the
 partial update that was asked for.
 */
module SetClause {
  import opened Wrappers
  import opened Errors
  import opened Schema
  import opened Decimal

  datatype Column = Title | Description | Requirements | Location | SalaryRange | Category | UpdatedAt

  datatype Source = Placeholder(n: nat) | CurrentTime

  datatype Assignment = Assignment(column: Column, source: Source)

  /** A positional argument; $1 is the first. */
  datatype Arg = IdArg(id: Id) | TextArg(text: string)

  // ---- The text ----

  function Name(c: Column): string {
    match c
    case Title => "title"
    case Description => "description"
    case Requirements => "requirements"
    case Location => "location"
    case SalaryRange => "salary_range"
    case Category => "category"
    case UpdatedAt => "updated_at"
  }

  function PrintSource(s: Source): string {
    match s
    case Placeholder(n) => "$" + Itoa(n)
    case CurrentTime => "NOW()"
  }

  function Print(a: Assignment): string {
    Name(a.column) + " = " + PrintSource(a.source)
  }

  function PrintAll(assignments: seq<Assignment>): seq<string> {
    seq(|assignments|, i requires 0 <= i < |assignments| => Print(assignments[i]))
  }

  /** strings.Join. */
  function Join(parts: seq<string>, separator: string): string {
    if parts == [] then ""
    else if |parts| == 1 then parts[0]
    else parts[0] + separator + Join(parts[1..], separator)
  }

  const HEAD := "UPDATE jobs SET "
  const KEY := " WHERE id = $"

  function Statement(assignments: seq<Assignment>): string {
    HEAD + Join(PrintAll(assignments), ", ") + KEY + "1"
  }

  // ---- The parser ----

  predicate IsNameChar(c: char) {
    'a' <= c <= 'z' || c == '_'
  }

  /** The length of the longest prefix of digits (or of name characters). */
  function Span(s: string, digits: bool): (n: nat)
    ensures n <= |s|
    ensures forall i :: 0 <= i < n ==> if digits then IsDigit(s[i]) else IsNameChar(s[i])
  {
    if s == "" || !(if digits then IsDigit(s[0]) else IsNameChar(s[0])) then 0 else 1 + Span(s[1..], digits)
  }

  function Expect(s: string, literal: string): (rest: Option<string>)
    ensures rest.Some? ==> s == literal + rest.value
  {
    if literal <= s then Some(s[|literal|..]) else None
  }

  function ColumnNamed(name: string): Option<Column> {
    if name == "title" then Some(Title)
    else if name == "description" then Some(Description)
    else if name == "requirements" then Some(Requirements)
    else if name == "location" then Some(Location)
    else if name == "salary_range" then Some(SalaryRange)
    else if name == "category" then Some(Category)
    else if name == "updated_at" then Some(UpdatedAt)
    else None
  }

  function ParseSource(s: string): (r: Option<(Source, string)>)
    ensures r.Some? ==> |r.value.1| < |s|
  {
    if s != "" && s[0] == '$' then
      var n := Span(s[1..], true);
      if n == 0 then None else Some((Placeholder(ParseNat(s[1..][..n])), s[1..][n..]))
    else
      var rest := Expect(s, "NOW()");
      if rest.None? then None else Some((CurrentTime, rest.value))
  }

  function ParseAssignment(s: string): (r: Option<(Assignment, string)>)
    ensures r.Some? ==> |r.value.1| < |s|
  {
    var n := Span(s, false);
    var column := ColumnNamed(s[..n]);
    if column.None? then None else
    var afterEquals := Expect(s[n..], " = ");
    if afterEquals.None? then None else
    var source := ParseSource(afterEquals.value);
    if source.None? then None else Some((Assignment(column.value, source.value.0), source.value.1))
  }

  function ParseAssignments(s: string): (r: Option<(seq<Assignment>, string)>)
    decreases |s|
  {
    var first := ParseAssignment(s);
    if first.None? then None else
    var next := Expect(first.value.1, ", ");
    if next.None? then Some(([first.value.0], first.value.1)) else
    var others := ParseAssignments(next.value);
    if others.None? then None else Some(([first.value.0] + others.value.0, others.value.1))
  }

  /** <head><assignments><key><n>: the assignments and n. */
  function ParseStatement(s: string, head: string, key: string): Option<(seq<Assignment>, nat)> {
    var body := Expect(s, head);
    if body.None? then None else
    var assignments := ParseAssignments(body.value);
    if assignments.None? then None else
    var number := Expect(assignments.value.1, key);
    if number.None? || number.value == "" || Span(number.value, true) != |number.value| then None
    else Some((assignments.value.0, ParseNat(number.value)))
  }

  function ParseUpdate(s: string): Option<(seq<Assignment>, nat)> {
    ParseStatement(s, HEAD, KEY)
  }

  // ---- Running a statement ----

  function SetText(job: Job, c: Column, text: string): Job {
    match c
    case Title => job.(title := text)
    case Description => job.(description := text)
    case Requirements => job.(requirements := text)
    case Location => job.(location := text)
    case SalaryRange => job.(salaryRange := Some(text))
    case Category => job.(category := Some(text))
    case UpdatedAt => job
  }

  /** A text column takes a text argument and updated_at takes the time; anything else is a type error. */
  function AssignOne(job: Job, a: Assignment, args: seq<Arg>, now: Time): Option<Job> {
    match a.source
    case CurrentTime => if a.column.UpdatedAt? then Some(job.(updatedAt := now)) else None
    case Placeholder(n) =>
      if 1 <= n <= |args| && args[n - 1].TextArg? && !a.column.UpdatedAt?
      then Some(SetText(job, a.column, args[n - 1].text)) else None
  }

  function AssignAll(job: Job, assignments: seq<Assignment>, args: seq<Arg>, now: Time): Option<Job> {
    if assignments == [] then Some(job) else
    var n := |assignments| - 1;
    var before := AssignAll(job, assignments[..n], args, now);
    if before.None? then None else AssignOne(before.value, assignments[n], args, now)
  }

  predicate NoColumnTwice(assignments: seq<Assignment>) {
    forall i, j :: 0 <= i < j < |assignments| ==> assignments[i].column != assignments[j].column
  }

  /** The number of parameters the statement has: its highest placeholder. */
  function Highest(assignments: seq<Assignment>, key: nat): (h: nat)
    ensures key <= h
  {
    if assignments == [] then key else
    var n := |assignments| - 1;
    var before := Highest(assignments[..n], key);
    if assignments[n].source.Placeholder? && assignments[n].source.n > before then assignments[n].source.n else before
  }

  /**
   Executes a statement text with its arguments: the number of rows changed, or an error and no change. pgx
   rejects an argument list that is not exactly as long as the statement's parameters.
   */
  function ExecUpdate(db: Db, text: string, args: seq<Arg>, now: Time): (Db, Result<nat, Error>) {
    var parsed := ParseUpdate(text);
    if parsed.None? then (db, Failure(Pg(SyntaxError))) else
    var (assignments, key) := parsed.value;
    if |args| != Highest(assignments, key) || key < 1 || !args[key - 1].IdArg? || !NoColumnTwice(assignments) then
      (db, Failure(Pg(SyntaxError)))
    else
      var id := args[key - 1].id;
      if id !in db.jobs then (db, Success(0)) else
      var row := AssignAll(db.jobs[id], assignments, args, now);
      if row.None? then (db, Failure(Pg(SyntaxError)))
      else (db.(jobs := db.jobs[id := row.value.(updatedAt := now)]), Success(1))
  }

  // ---- The compiler ----

  const FIELDS := [Title, Description, Requirements, Location, SalaryRange, Category]

  function Field(p: JobPatch, c: Column): Option<string> {
    match c
    case Title => p.title
    case Description => p.description
    case Requirements => p.requirements
    case Location => p.location
    case SalaryRange => p.salaryRange
    case Category => p.category
    case UpdatedAt => None
  }

  /** The assignments of the present fields among `columns`, numbered from $2. */
  function Clauses(p: JobPatch, columns: seq<Column>): seq<Assignment> {
    if columns == [] then [] else
    var n := |columns| - 1;
    var before := Clauses(p, columns[..n]);
    if Field(p, columns[n]).Some? then before + [Assignment(columns[n], Placeholder(|before| + 2))] else before
  }

  function Args(p: JobPatch, columns: seq<Column>): seq<Arg> {
    if columns == [] then [] else
    var n := |columns| - 1;
    var before := Args(p, columns[..n]);
    if Field(p, columns[n]).Some? then before + [TextArg(Field(p, columns[n]).value)] else before
  }

  function Assignments(p: JobPatch): seq<Assignment> {
    Clauses(p, FIELDS) + [Assignment(UpdatedAt, CurrentTime)]
  }

  function Arguments(jobId: Id, p: JobPatch): seq<Arg> {
    [IdArg(jobId)] + Args(p, FIELDS)
  }

  // ---- Reading the text back ----

  lemma {:induction false} SpanStops(a: string, b: string, digits: bool)
    requires forall i :: 0 <= i < |a| ==> if digits then IsDigit(a[i]) else IsNameChar(a[i])
    requires b == "" || !(if digits then IsDigit(b[0]) else IsNameChar(b[0]))
    ensures Span(a + b, digits) == |a|
  {
    if a == "" {
      assert a + b == b;
    } else {
      assert (a + b)[1..] == a[1..] + b;
      SpanStops(a[1..], b, digits);
    }
  }

  lemma ExpectReads(literal: string, rest: string)
    ensures Expect(literal + rest, literal) == Some(rest)
  {
  }

  lemma NameReads(c: Column)
    ensures ColumnNamed(Name(c)) == Some(c)
    ensures forall i :: 0 <= i < |Name(c)| ==> IsNameChar(Name(c)[i])
  {
  }

  lemma SourceReads(s: Source, rest: string)
    requires rest == "" || !IsDigit(rest[0])
    ensures ParseSource(PrintSource(s) + rest) == Some((s, rest))
  {
    match s {
      case Placeholder(n) =>
        ItoaParses(n);
        var text := PrintSource(s) + rest;
        assert text[1..] == Itoa(n) + rest;
        SpanStops(Itoa(n), rest, true);
        assert (Itoa(n) + rest)[..|Itoa(n)|] == Itoa(n);
      case CurrentTime =>
        ExpectReads("NOW()", rest);
    }
  }

  lemma AssignmentReads(a: Assignment, rest: string)
    requires rest == "" || !IsDigit(rest[0])
    ensures ParseAssignment(Print(a) + rest) == Some((a, rest))
  {
    NameReads(a.column);
    var name, tail := Name(a.column), " = " + (PrintSource(a.source) + rest);
    assert Print(a) + rest == name + tail;
    SpanStops(name, tail, false);
    assert (name + tail)[..|name|] == name && (name + tail)[|name|..] == tail;
    ExpectReads(" = ", PrintSource(a.source) + rest);
    SourceReads(a.source, rest);
  }

  lemma Associate(a: string, b: string, c: string, d: string)
    ensures a + b + c + d == a + (b + (c + d))
  {
  }

  lemma JoinFirst(parts: seq<string>, separator: string, rest: string)
    requires |parts| > 1
    ensures Join(parts, separator) + rest == parts[0] + (separator + (Join(parts[1..], separator) + rest))
  {
    Associate(parts[0], separator, Join(parts[1..], separator), rest);
  }

  lemma FirstReads(a: Assignment, others: string, list: seq<Assignment>, rest: string)
    requires ParseAssignments(others) == Some((list, rest))
    ensures ParseAssignments(Print(a) + (", " + others)) == Some(([a] + list, rest))
  {
    AssignmentReads(a, ", " + others);
    ExpectReads(", ", others);
  }

  lemma LastReads(assignments: seq<Assignment>, rest: string)
    requires |assignments| == 1 && rest != "" && !IsDigit(rest[0]) && rest[0] != ','
    ensures ParseAssignments(Join(PrintAll(assignments), ", ") + rest) == Some((assignments, rest))
  {
    AssignmentReads(assignments[0], rest);
    assert [assignments[0]] == assignments;
  }

  lemma PrintedFirst(assignments: seq<Assignment>)
    requires assignments != []
    ensures PrintAll(assignments)[0] == Print(assignments[0])
    ensures PrintAll(assignments)[1..] == PrintAll(assignments[1..])
    ensures [assignments[0]] + assignments[1..] == assignments
  {
  }

  lemma {:induction false} AssignmentsRead(assignments: seq<Assignment>, rest: string)
    requires assignments != [] && rest != "" && !IsDigit(rest[0]) && rest[0] != ','
    ensures ParseAssignments(Join(PrintAll(assignments), ", ") + rest) == Some((assignments, rest))
  {
    if |assignments| == 1 {
      LastReads(assignments, rest);
    } else {
      PrintedFirst(assignments);
      var others := Join(PrintAll(assignments[1..]), ", ") + rest;
      AssignmentsRead(assignments[1..], rest);
      FirstReads(assignments[0], others, assignments[1..], rest);
      JoinFirst(PrintAll(assignments), ", ", rest);
    }
  }

  lemma NumberReads(key: string, n: nat)
    requires key != "" && !IsDigit(key[0]) && key[0] != ','
    ensures Expect(key + Itoa(n), key) == Some(Itoa(n)) && Itoa(n) != "" && AllDigits(Itoa(n)) && ParseNat(Itoa(n)) == n
    ensures Span(Itoa(n), true) == |Itoa(n)|
    ensures (key + Itoa(n))[0] == key[0]
  {
    ExpectReads(key, Itoa(n));
    ItoaParses(n);
    SpanStops(Itoa(n), "", true);
    assert Itoa(n) + "" == Itoa(n);
  }

  lemma StatementParses(assignments: seq<Assignment>, head: string, key: string, n: nat)
    requires assignments != [] && key != "" && !IsDigit(key[0]) && key[0] != ','
    ensures ParseStatement(head + Join(PrintAll(assignments), ", ") + key + Itoa(n), head, key) == Some((assignments, n))
  {
    var list := Join(PrintAll(assignments), ", ");
    Associate(head, list, key, Itoa(n));
    ExpectReads(head, list + (key + Itoa(n)));
    NumberReads(key, n);
    AssignmentsRead(assignments, key + Itoa(n));
  }

  /** Every non-empty SET list reads back as itself, at the character level. */
  lemma StatementReads(assignments: seq<Assignment>)
    requires assignments != []
    ensures ParseUpdate(Statement(assignments)) == Some((assignments, 1))
  {
    StatementParses(assignments, HEAD, KEY, 1);
    assert Itoa(1) == "1";
  }

  // ---- What the compiler emits ----

  /** Placeholders are exactly $2..$(k+1) in order, and each names its own column's value. */
  lemma {:induction false} PlaceholdersNameValues(p: JobPatch, columns: seq<Column>)
    ensures |Clauses(p, columns)| == |Args(p, columns)|
    ensures forall i :: 0 <= i < |Clauses(p, columns)| ==>
      && Clauses(p, columns)[i].source == Placeholder(i + 2)
      && Args(p, columns)[i].TextArg?
      && Field(p, Clauses(p, columns)[i].column) == Some(Args(p, columns)[i].text)
      && Clauses(p, columns)[i].column in columns
  {
    if columns != [] {
      var n := |columns| - 1;
      PlaceholdersNameValues(p, columns[..n]);
      assert columns[..n] + [columns[n]] == columns;
    }
  }

  /** A column is assigned if and only if its field is present. */
  lemma {:induction false} AssignedIffPresent(p: JobPatch, columns: seq<Column>, c: Column)
    requires c in columns
    ensures Field(p, c).Some? <==> exists i :: 0 <= i < |Clauses(p, columns)| && Clauses(p, columns)[i].column == c
  {
    var n := |columns| - 1;
    var before := Clauses(p, columns[..n]);
    PlaceholdersNameValues(p, columns);
    if c in columns[..n] {
      AssignedIffPresent(p, columns[..n], c);
      if Field(p, c).Some? {
        var i :| 0 <= i < |before| && before[i].column == c;
        assert Clauses(p, columns)[i].column == c;
      }
    } else if Field(p, c).Some? {
      assert columns[n] == c;
      assert Clauses(p, columns)[|before|].column == c;
    }
  }

  lemma {:induction false} ClausesDistinct(p: JobPatch, columns: seq<Column>)
    requires forall i, j :: 0 <= i < j < |columns| ==> columns[i] != columns[j]
    ensures NoColumnTwice(Clauses(p, columns))
  {
    if columns != [] {
      var n := |columns| - 1;
      ClausesDistinct(p, columns[..n]);
      PlaceholdersNameValues(p, columns[..n]);
    }
  }

  lemma {:induction false} HighestIsLast(assignments: seq<Assignment>)
    requires forall i :: 0 <= i < |assignments| ==> assignments[i].source == Placeholder(i + 2)
    ensures Highest(assignments, 1) == |assignments| + 1
  {
    if assignments != [] {
      HighestIsLast(assignments[..|assignments| - 1]);
    }
  }

  /** The row with the present fields among `columns` set. */
  function SetFields(job: Job, p: JobPatch, columns: seq<Column>): Job {
    if columns == [] then job else
    var n := |columns| - 1;
    var before := SetFields(job, p, columns[..n]);
    if Field(p, columns[n]).Some? then SetText(before, columns[n], Field(p, columns[n]).value) else before
  }

  lemma {:induction false} ClausesSetFields(job: Job, p: JobPatch, columns: seq<Column>, args: seq<Arg>, now: Time)
    requires UpdatedAt !in columns
    requires args != [] && Args(p, columns) <= args[1..]
    ensures AssignAll(job, Clauses(p, columns), args, now) == Some(SetFields(job, p, columns))
  {
    if columns != [] {
      var n := |columns| - 1;
      var before := Clauses(p, columns[..n]);
      PlaceholdersNameValues(p, columns[..n]);
      ClausesSetFields(job, p, columns[..n], args, now);
      if Field(p, columns[n]).Some? {
        assert Clauses(p, columns)[..|before|] == before;
        assert args[1..][|before|] == TextArg(Field(p, columns[n]).value);
      }
    }
  }

  lemma FieldsArePatch(job: Job, p: JobPatch, now: Time)
    ensures SetFields(job, p, FIELDS).(updatedAt := now) == PatchedJob(job, p, now)
  {
    var f := FIELDS;
    assert f[..6] == f && f[..6][..5] == f[..5] && f[..5][..4] == f[..4] && f[..4][..3] == f[..3];
    assert f[..3][..2] == f[..2] && f[..2][..1] == f[..1] && f[..1][..0] == [];
    assert SetFields(job, p, f[..1]) == job.(title := p.title.GetOr(job.title));
    assert SetFields(job, p, f[..2]) ==
      SetFields(job, p, f[..1]).(description := p.description.GetOr(job.description));
    assert SetFields(job, p, f[..3]) ==
      SetFields(job, p, f[..2]).(requirements := p.requirements.GetOr(job.requirements));
    assert SetFields(job, p, f[..4]) == SetFields(job, p, f[..3]).(location := p.location.GetOr(job.location));
    assert SetFields(job, p, f[..5]) ==
      SetFields(job, p, f[..4]).(salaryRange := Kept(p.salaryRange, job.salaryRange));
    assert SetFields(job, p, f) == SetFields(job, p, f[..5]).(category := Kept(p.category, job.category));
  }

  lemma CompiledIsWellFormed(jobId: Id, p: JobPatch)
    ensures |Arguments(jobId, p)| == Highest(Assignments(p), 1) && NoColumnTwice(Assignments(p))
  {
    PlaceholdersNameValues(p, FIELDS);
    ClausesDistinct(p, FIELDS);
    TimeAppended(Clauses(p, FIELDS));
  }

  lemma TimeAppended(clauses: seq<Assignment>)
    requires forall i :: 0 <= i < |clauses| ==> clauses[i].source == Placeholder(i + 2) && clauses[i].column in FIELDS
    requires NoColumnTwice(clauses)
    ensures var all := clauses + [Assignment(UpdatedAt, CurrentTime)];
      Highest(all, 1) == |clauses| + 1 && NoColumnTwice(all)
  {
    HighestIsLast(clauses);
    var all := clauses + [Assignment(UpdatedAt, CurrentTime)];
    assert all[..|all| - 1] == clauses;
    assert UpdatedAt !in FIELDS;
  }

  lemma CompiledRow(job: Job, jobId: Id, p: JobPatch, now: Time)
    ensures AssignAll(job, Assignments(p), Arguments(jobId, p), now) == Some(PatchedJob(job, p, now))
  {
    var all := Assignments(p);
    assert all[..|all| - 1] == Clauses(p, FIELDS);
    CompiledIsWellFormed(jobId, p);
    ClausesSetFields(job, p, FIELDS, Arguments(jobId, p), now);
    FieldsArePatch(job, p, now);
  }

  /**
   The compiler preserves meaning: parsed and run on any tables, the text with its arguments is the direct
   partial update of that one row, and changes no other.
   */
  lemma CompiledUpdateMeansPatch(db: Db, jobId: Id, p: JobPatch, now: Time)
    ensures ExecUpdate(db, Statement(Assignments(p)), Arguments(jobId, p), now) ==
            (PatchJob(db, jobId, p, now), Success(if jobId in db.jobs then 1 else 0))
  {
    StatementReads(Assignments(p));
    CompiledIsWellFormed(jobId, p);
    if jobId in db.jobs {
      CompiledRow(db.jobs[jobId], jobId, p, now);
    }
  }

  function Get(job: Job, c: Column): Option<string> {
    match c
    case Title => Some(job.title)
    case Description => Some(job.description)
    case Requirements => Some(job.requirements)
    case Location => Some(job.location)
    case SalaryRange => job.salaryRange
    case Category => job.category
    case UpdatedAt => None
  }

  /** What the direct partial update does, column by column and row by row. */
  lemma PatchIsExact(db: Db, jobId: Id, p: JobPatch, now: Time, c: Column, other: Id)
    requires jobId in db.jobs && other != jobId
    ensures var after := PatchJob(db, jobId, p, now); var row, was := after.jobs[jobId], db.jobs[jobId];
      && (!c.UpdatedAt? ==> Get(row, c) == if Field(p, c).Some? then Field(p, c) else Get(was, c))
      && row.updatedAt == now && row.recruiterId == was.recruiterId && row.isActive == was.isActive
      && row.createdAt == was.createdAt
      && (other in after.jobs <==> other in db.jobs) && (other in db.jobs ==> after.jobs[other] == db.jobs[other])
      && after.(jobs := db.jobs) == db
  {
    var row := PatchJob(db, jobId, p, now).jobs[jobId];
    assert c.Title? ==> Get(row, c) == Some(p.title.GetOr(db.jobs[jobId].title));
  }

  // ---- Updates in sequence ----

  function Newer(first: Option<string>, second: Option<string>): Option<string> {
    if second.Some? then second else first
  }

  /** The request that asks for `r1` and then `r2` at once. */
  function Override(r1: JobPatch, r2: JobPatch): JobPatch {
    JobPatch(Newer(r1.title, r2.title), Newer(r1.description, r2.description), Newer(r1.requirements, r2.requirements),
             Newer(r1.location, r2.location), Newer(r1.salaryRange, r2.salaryRange), Newer(r1.category, r2.category))
  }

  /** What UpdateJob runs for a request: its statement, or nothing when no field is present. */
  function RunUpdate(db: Db, jobId: Id, r: JobPatch, now: Time): Db {
    if r == NO_CHANGE then db else ExecUpdate(db, Statement(Assignments(r)), Arguments(jobId, r), now).0
  }

  lemma RunUpdateIsPatch(db: Db, jobId: Id, r: JobPatch, now: Time)
    ensures RunUpdate(db, jobId, r, now) == if r == NO_CHANGE then db else PatchJob(db, jobId, r, now)
  {
    CompiledUpdateMeansPatch(db, jobId, r, now);
  }

  lemma PatchesCompose(db: Db, jobId: Id, r1: JobPatch, r2: JobPatch, t1: Time, t2: Time)
    ensures PatchJob(PatchJob(db, jobId, r1, t1), jobId, r2, t2) == PatchJob(db, jobId, Override(r1, r2), t2)
  {
    if jobId in db.jobs {
      var row := PatchedJob(db.jobs[jobId], Override(r1, r2), t2);
      assert PatchedJob(PatchedJob(db.jobs[jobId], r1, t1), r2, t2) == row;
      assert db.jobs[jobId := PatchedJob(db.jobs[jobId], r1, t1)][jobId := row] == db.jobs[jobId := row];
    }
  }

  lemma OverrideEmpty(r1: JobPatch, r2: JobPatch)
    ensures r2 == NO_CHANGE ==> Override(r1, r2) == r1
    ensures r1 == NO_CHANGE ==> Override(r1, r2) == r2
    ensures Override(r1, r2) == NO_CHANGE <==> r1 == NO_CHANGE && r2 == NO_CHANGE
  {
  }

  /**
   UpdateJob with `r1` and then with `r2` runs to the same tables as one with `r2` overriding `r1`, at the time of the
   last of the two that ran a statement.
   */
  lemma UpdatesCompose(db: Db, jobId: Id, r1: JobPatch, r2: JobPatch, t1: Time, t2: Time)
    ensures RunUpdate(RunUpdate(db, jobId, r1, t1), jobId, r2, t2) ==
            RunUpdate(db, jobId, Override(r1, r2), if r2 == NO_CHANGE then t1 else t2)
  {
    OverrideEmpty(r1, r2);
    RunUpdateIsPatch(db, jobId, r1, t1);
    RunUpdateIsPatch(RunUpdate(db, jobId, r1, t1), jobId, r2, t2);
    RunUpdateIsPatch(db, jobId, Override(r1, r2), t2);
    PatchesCompose(db, jobId, r1, r2, t1, t2);
  }

  // ---- The method ----

  /** What UpdateJob's three variables hold once it has looked at the fields `columns`. */
  ghost predicate Emitted(jobId: Id, p: JobPatch, columns: seq<Column>, sets: seq<string>, args: seq<Arg>, argIdx: int) {
    sets == PrintAll(Clauses(p, columns)) && args == [IdArg(jobId)] + Args(p, columns) && argIdx == |sets| + 2
  }

  lemma EmitField(jobId: Id, p: JobPatch, columns: seq<Column>, c: Column, sets: seq<string>, args: seq<Arg>, argIdx: nat)
    requires Emitted(jobId, p, columns, sets, args, argIdx)
    ensures var field := Field(p, c);
      if field.Some? then
        Emitted(jobId, p, columns + [c], sets + [Name(c) + " = $" + Itoa(argIdx)], args + [TextArg(field.value)], argIdx + 1)
      else Emitted(jobId, p, columns + [c], sets, args, argIdx)
  {
    assert (columns + [c])[..|columns|] == columns;
    var clauses := Clauses(p, columns);
    if Field(p, c).Some? {
      var a := Assignment(c, Placeholder(|clauses| + 2));
      assert Name(c) + " = $" + Itoa(argIdx) == Print(a);
      assert PrintAll(clauses + [a]) == sets + [Print(a)];
    }
  }

  lemma EmittedAll(jobId: Id, p: JobPatch, columns: seq<Column>, sets: seq<string>, args: seq<Arg>, argIdx: int)
    requires Emitted(jobId, p, columns, sets, args, argIdx)
    requires columns == [] + [Title] + [Description] + [Requirements] + [Location] + [SalaryRange] + [Category]
    ensures HEAD + Join(sets + ["updated_at = NOW()"], ", ") + KEY + "1" == Statement(Assignments(p))
    ensures args == Arguments(jobId, p)
    ensures sets == [] <==> p == NO_CHANGE
  {
    assert columns == FIELDS;
    var last := Assignment(UpdatedAt, CurrentTime);
    assert Print(last) == "updated_at = NOW()";
    assert PrintAll(Clauses(p, FIELDS) + [last]) == sets + [Print(last)];
    EmptyIffNoChange(p);
  }

  lemma EmptyIffNoChange(p: JobPatch)
    ensures Clauses(p, FIELDS) == [] <==> p == NO_CHANGE
  {
    forall c | c in FIELDS
      ensures Field(p, c).Some? <==> exists i :: 0 <= i < |Clauses(p, FIELDS)| && Clauses(p, FIELDS)[i].column == c
    {
      AssignedIffPresent(p, FIELDS, c);
    }
    PlaceholdersNameValues(p, FIELDS);
    assert forall c :: c in FIELDS <==> c in {Title, Description, Requirements, Location, SalaryRange, Category};
    assert p == NO_CHANGE <==> forall c :: c in FIELDS ==> Field(p, c).None? by {
      assert Title in FIELDS && Description in FIELDS && Requirements in FIELDS;
      assert Location in FIELDS && SalaryRange in FIELDS && Category in FIELDS;
    }
    if Clauses(p, FIELDS) != [] {
      assert Clauses(p, FIELDS)[0].column in FIELDS;
    }
  }

  /** The block UpdateJob repeats for each field: if the field is there, a clause, its argument and the next index. */
  method AppendField(ghost jobId: Id, ghost req: JobPatch, ghost seen: seq<Column>, c: Column, field: Option<string>,
                     setClauses: seq<string>, args: seq<Arg>, argIdx: nat)
    returns (moreClauses: seq<string>, moreArgs: seq<Arg>, nextIdx: nat)
    requires Emitted(jobId, req, seen, setClauses, args, argIdx) && field == Field(req, c)
    ensures Emitted(jobId, req, seen + [c], moreClauses, moreArgs, nextIdx)
  {
    EmitField(jobId, req, seen, c, setClauses, args, argIdx);
    moreClauses, moreArgs, nextIdx := setClauses, args, argIdx;
    if field.Some? {
      moreClauses := moreClauses + [Name(c) + " = $" + Itoa(argIdx)];
      moreArgs := moreArgs + [TextArg(field.value)];
      nextIdx := nextIdx + 1;
    }
  }

  /**
   The query-building part of UpdateJob; None when there is nothing to update. What the statement does is
   CompiledUpdateMeansPatch.
   */
  method BuildUpdate(jobId: Id, req: JobPatch) returns (compiled: Option<(string, seq<Arg>)>)
    ensures compiled == if req == NO_CHANGE then None else Some((Statement(Assignments(req)), Arguments(jobId, req)))
  {
    var setClauses: seq<string> := [];
    var args: seq<Arg> := [IdArg(jobId)];
    var argIdx: nat := 2;
    setClauses, args, argIdx := AppendField(jobId, req, [], Title, req.title, setClauses, args, argIdx);
    ghost var seen := [] + [Title];
    setClauses, args, argIdx := AppendField(jobId, req, seen, Description, req.description, setClauses, args, argIdx);
    seen := seen + [Description];
    setClauses, args, argIdx := AppendField(jobId, req, seen, Requirements, req.requirements, setClauses, args, argIdx);
    seen := seen + [Requirements];
    setClauses, args, argIdx := AppendField(jobId, req, seen, Location, req.location, setClauses, args, argIdx);
    seen := seen + [Location];
    setClauses, args, argIdx := AppendField(jobId, req, seen, SalaryRange, req.salaryRange, setClauses, args, argIdx);
    seen := seen + [SalaryRange];
    setClauses, args, argIdx := AppendField(jobId, req, seen, Category, req.category, setClauses, args, argIdx);
    seen := seen + [Category];
    EmittedAll(jobId, req, seen, setClauses, args, argIdx);
    if |setClauses| == 0 {
      return None;
    }
    setClauses := setClauses + ["updated_at = NOW()"];
    compiled := Some((HEAD + Join(setClauses, ", ") + KEY + "1", args));
  }
}
