/**
 The arithmetic around a page of jobs: the query-string integers, the int64 offset and the float64 page count
 (internal/handlers/job.go, internal/services/job.go).
 */
module Pagination {
  import opened Wrappers
  import opened Errors
  import opened Decimal
  import opened Schema
  import opened Integrity
  import opened Listing

  // ---- Query string and clamp ----

  function QueryInt(s: string, fallback: int): int {
    if s == "" then fallback else
    var n := Atoi(s);
    if n.None? || n.value < 1 then fallback else n.value
  }

  function ClampPage(page: int): int {
    if page < 1 then 1 else page
  }

  function ClampSize(pageSize: int): int {
    if pageSize < 1 || pageSize > 100 then 10 else pageSize
  }

  /** The page a request asks for, from its two query strings. */
  function RequestedPage(page: string): int {
    ClampPage(QueryInt(page, 1))
  }

  function RequestedSize(pageSize: string): int {
    ClampSize(QueryInt(pageSize, 10))
  }

  /** Every query string gives a usable page and size, and a printed number in range is taken as it is. */
  lemma RequestsAreUsable(page: string, pageSize: string)
    ensures 1 <= QueryInt(page, 1) && 1 <= QueryInt(pageSize, 10)
    ensures 1 <= RequestedPage(page) <= MAX_INT64
    ensures 1 <= RequestedSize(pageSize) <= 100
    ensures forall n: nat :: 1 <= n <= MAX_INT64 && page == Itoa(n) ==> RequestedPage(page) == n
    ensures forall n: nat :: 1 <= n <= 100 && pageSize == Itoa(n) ==> RequestedSize(pageSize) == n
  {
    forall n: nat | n <= MAX_INT64 ensures Itoa(n) != "" && Atoi(Itoa(n)) == Some(n) {
      ItoaParses(n);
      AtoiReads(n);
    }
  }

  /** The service's own clamp: a usable page and size stay, any other becomes 1 and 10. */
  lemma ClampsAre(page: int, size: int)
    ensures ClampPage(page) == page <==> page >= 1
    ensures ClampPage(page) == 1 <==> page <= 1
    ensures 1 <= size <= 100 ==> ClampSize(size) == size
    ensures size < 1 || size > 100 ==> ClampSize(size) == 10
  {
  }

  /** Text strconv.Atoi refuses whatever its length: no digits at all, or a character that is not one. */
  predicate Malformed(s: string) {
    || s == "" || s == "-" || s == "+"
    || (!IsDigit(s[0]) && s[0] != '-' && s[0] != '+')
    || exists i :: 1 <= i < |s| && !IsDigit(s[i])
  }

  lemma MalformedIsRefused(s: string)
    requires Malformed(s)
    ensures Atoi(s).None?
  {
    if i :| 1 <= i < |s| && !IsDigit(s[i]) {
      assert s[1..][i - 1] == s[i];
    }
  }

  /** A missing or malformed page gives 1 and a missing or malformed size 10; so do numbers out of range. */
  lemma DefaultsApply(page: string, size: string, n: nat)
    ensures Malformed(page) || (page == Itoa(n) && (n == 0 || n > MAX_INT64)) || page == "-" + Itoa(n)
            ==> RequestedPage(page) == 1
    ensures Malformed(size) || (size == Itoa(n) && (n == 0 || n > 100)) || size == "-" + Itoa(n)
            ==> RequestedSize(size) == 10
  {
    ItoaParses(n);
    if Malformed(page) {
      MalformedIsRefused(page);
    }
    if Malformed(size) {
      MalformedIsRefused(size);
    }
    assert ("-" + Itoa(n))[1..] == Itoa(n);
  }

  // ---- The offset ----

  /** Go's int is 64 bits and wraps around. */
  function Wrap64(n: int): int {
    (n + MAX_INT64 + 1) % (2 * MAX_INT64 + 2) - MAX_INT64 - 1
  }

  function Offset(page: int, size: int): int {
    Wrap64((page - 1) * size)
  }

  lemma FitsIff(page: int, size: int)
    requires 1 <= page && 1 <= size
    ensures (page - 1) * size <= MAX_INT64 <==> page - 1 <= MAX_INT64 / size
  {
    var q := MAX_INT64 / size;
    assert MAX_INT64 == size * q + MAX_INT64 % size;
    if page - 1 <= q {
      MulMonotone(page - 1, q, size);
    } else {
      MulMonotone(q + 1, page - 1, size);
      assert (q + 1) * size == size * q + size;
    }
  }

  /** The int64 offset is the true offset exactly when page-1 is at most (2^63-1)/pageSize. */
  lemma OffsetExactIff(page: int, size: int)
    requires 1 <= page && 1 <= size
    ensures Offset(page, size) == (page - 1) * size <==> page - 1 <= MAX_INT64 / size
  {
    FitsIff(page, size);
    assert 0 <= (page - 1) * size;
  }

  /**
   LIMIT and OFFSET. PostgreSQL refuses a negative OFFSET; `early` says whether Query itself reports that. If only
   rows.Err() does, which the service never reads, the loop sees no row and the list is empty.
   */
  function Fetch<T>(list: seq<T>, limit: nat, offset: int, early: bool): (r: Result<seq<T>, Error>)
    ensures r.Success? ==> forall x :: x in r.value ==> x in list
  {
    if offset >= 0 then Success(Slice(list, limit, offset))
    else if early then Failure(Pg(InvalidOffset))
    else Success([])
  }

  /** What a page request returns. */
  function Response<T>(list: seq<T>, page: int, size: nat, early: bool): (r: Result<seq<T>, Error>)
    ensures r.Success? ==> forall x :: x in r.value ==> x in list
  {
    Fetch(list, size, Offset(page, size), early)
  }

  /** The answer is the page that was asked for exactly when the offset is true, or wrapped clear of the list. */
  lemma ResponseRightIff<T>(list: seq<T>, page: nat, size: nat, early: bool)
    requires 1 <= page && 1 <= size && |list| <= MAX_INT64
    ensures Response(list, page, size, early) == Success(Page(list, page, size))
            <==> page - 1 <= MAX_INT64 / size || Offset(page, size) >= |list| || (Offset(page, size) < 0 && !early)
  {
    FitsIff(page, size);
    OffsetExactIff(page, size);
    assert page - 1 > MAX_INT64 / size ==> Page(list, page, size) == [];
  }

  /** Page 2^58 + 1 of size 64 is far past any list, yet it answers with the first page. */
  lemma FarPageRepeatsFirst<T>(list: seq<T>, page: nat, early: bool)
    requires list != [] && |list| <= MAX_INT64 && page == 0x400_0000_0000_0001
    ensures RequestedPage(Itoa(page)) == page
    ensures Page(list, page, 64) == []
    ensures Response(list, page, 64, early) == Success(Page(list, 1, 64)) && Page(list, 1, 64) != []
  {
    RequestsAreUsable(Itoa(page), "");
    FarOffset(page);
  }

  lemma FarOffset(page: nat)
    requires page == 0x400_0000_0000_0001
    ensures Offset(page, 64) == 0 && Offset(1, 64) == 0 && (page - 1) * 64 > MAX_INT64
  {
    assert (page - 1) * 64 == 2 * MAX_INT64 + 2;
  }

  // ---- The page count ----

  const TWO52 := 4503599627370496.0
  const TWO53 := 9007199254740992.0

  function Nearest(x: real): int {
    var f := x.Floor;
    if x - f as real < 0.5 then f
    else if x - f as real > 0.5 then f + 1
    else if f % 2 == 0 then f else f + 1
  }

  /** Round to the nearest binary64 number, ties to even: between 2^52 and 2^53 these are the integers. */
  function Float64(x: real): real
    requires 0.0 < x
    decreases if x >= TWO53 then x.Floor else if x >= TWO52 then 0 else (TWO52 / x).Floor
  {
    if x >= TWO53 then HalvedIsSmaller(x); 2.0 * Float64(x / 2.0)
    else if x >= TWO52 then Nearest(x) as real
    else DoubledIsCloser(x); Float64(2.0 * x) / 2.0
  }

  /** Nearest is the closest integer, and of two equally close ones the even one. */
  lemma NearestIsClosest(x: real, n: int)
    ensures (if x >= n as real then x - n as real else n as real - x) >=
            (if x >= Nearest(x) as real then x - Nearest(x) as real else Nearest(x) as real - x)
    ensures x - Nearest(x) as real == 0.5 || Nearest(x) as real - x == 0.5 ==> Nearest(x) % 2 == 0
  {
    var f := x.Floor;
    assert n <= f || n >= f + 1;
  }

  /** Doubling is exact, so this and NearestIsClosest between 2^52 and 2^53 say what every Float64 is. */
  lemma FloatScales(x: real)
    requires 0.0 < x
    ensures Float64(2.0 * x) == 2.0 * Float64(x)
    ensures TWO52 <= x < TWO53 ==> Float64(x) == Nearest(x) as real
  {
    if x >= TWO52 {
      assert 2.0 * x / 2.0 == x;
    }
  }

  lemma HalvedIsSmaller(x: real)
    requires x >= TWO53
    ensures x / 2.0 >= TWO52 && (x / 2.0).Floor < x.Floor
  {
  }

  lemma DoubledIsCloser(x: real)
    requires 0.0 < x < TWO52
    ensures 2.0 * x < TWO53 && (2.0 * x < TWO52 ==> (TWO52 / (2.0 * x)).Floor < (TWO52 / x).Floor)
    ensures 0 < (TWO52 / x).Floor
  {
    var z := TWO52 / x;
    assert z * x == TWO52;
    assert z > 1.0;
    assert TWO52 / (2.0 * x) == z / 2.0;
  }

  lemma {:induction false} FloatAtMost(x: real)
    requires 0.0 < x <= TWO53
    ensures Float64(x) <= TWO53 && (x >= TWO52 ==> Float64(x) >= TWO52)
    decreases if x >= TWO53 then 1 else if x >= TWO52 then 0 else (TWO52 / x).Floor
  {
    if x < TWO52 {
      DoubledIsCloser(x);
      FloatAtMost(2.0 * x);
    } else if x == TWO53 {
      assert Float64(x / 2.0) == Nearest(TWO52) as real;
    }
  }

  lemma NearestMonotone(x: real, y: real)
    requires x <= y
    ensures Nearest(x) <= Nearest(y)
  {
    assert x.Floor <= y.Floor;
  }

  lemma FloatOfTwo53()
    ensures Float64(TWO53) == TWO53
  {
    assert Float64(TWO53 / 2.0) == TWO52;
  }

  lemma {:induction false} FloatMonotone(x: real, y: real)
    requires 0.0 < x <= y <= TWO53
    ensures Float64(x) <= Float64(y)
    decreases if x >= TWO52 then 0 else (TWO52 / x).Floor
  {
    if y == TWO53 {
      FloatOfTwo53();
      FloatAtMost(x);
    } else if x >= TWO52 {
      NearestMonotone(x, y);
    } else {
      DoubledIsCloser(x);
      assert Float64(x) == Float64(2.0 * x) / 2.0;
      if y < TWO52 {
        DoubledIsCloser(y);
        FloatMonotone(2.0 * x, 2.0 * y);
        assert Float64(y) == Float64(2.0 * y) / 2.0;
      } else {
        FloatAtMost(2.0 * x);
        FloatAtMost(y);
      }
    }
  }

  lemma {:induction false} FloatOfInt(n: nat)
    requires 0 < n && n as real <= TWO53
    ensures Float64(n as real) == n as real
    decreases if n as real >= TWO52 then 0 else (TWO52 / n as real).Floor
  {
    if n as real == TWO53 {
      FloatOfTwo53();
    } else if (n as real) < TWO52 {
      DoubledIsCloser(n as real);
      FloatOfInt(2 * n);
    }
  }

  /** Rounding loses less than one part in 2^53. */
  lemma {:induction false} FloatClose(x: real)
    requires 0.0 < x <= TWO53
    ensures x - x / TWO53 < Float64(x) < x + x / TWO53
    decreases if x >= TWO52 then 0 else (TWO52 / x).Floor
  {
    if x == TWO53 {
      FloatOfTwo53();
    } else if x < TWO52 {
      DoubledIsCloser(x);
      FloatClose(2.0 * x);
    } else {
      NearestClose(x);
    }
  }

  lemma NearestClose(x: real)
    requires TWO52 <= x < TWO53
    ensures x - x / TWO53 < Nearest(x) as real < x + x / TWO53
  {
    if x == TWO52 {
      assert Nearest(x) == x.Floor;
    } else {
      assert x / TWO53 > 0.5;
    }
  }

  function Ceil(x: real): int {
    -((-x).Floor)
  }

  /** int(math.Ceil(float64(total) / float64(pageSize))) */
  function TotalPages(total: nat, size: nat): int
    requires 0 < size
  {
    if total == 0 then 0
    else
      var t, s := Float64(total as real), Float64(size as real);
      if t > 0.0 && s > 0.0 then Ceil(Float64(t / s)) else 0
  }

  lemma CeilBetween(x: real, n: int)
    requires n as real < x <= (n + 1) as real
    ensures Ceil(x) == n + 1
  {
  }

  lemma PositiveFactor(a: real, b: real)
    requires a * b > 0.0 && b > 0.0
    ensures a > 0.0
  {
  }

  lemma NonNegativeFactor(a: real, b: real)
    requires a * b >= 0.0 && b > 0.0
    ensures a >= 0.0
  {
  }

  /** A quotient at least 1/d above n is at least one part in 2^53 above it. */
  lemma QuotientClears(t: real, d: real, n: real)
    requires 1.0 <= d && 0.0 < t <= TWO53 && n * d + 1.0 <= t
    ensures 0.0 < t / d <= t && n <= t / d - t / d / TWO53
  {
    var x := t / d;
    assert x * d == t;
    PositiveFactor(x, d);
    assert x * (d - 1.0) >= 0.0;
    var e := x / TWO53;
    assert e * d == t / TWO53;
    assert (x - n - e) * d == x * d - n * d - e * d;
    NonNegativeFactor(x - n - e, d);
  }

  lemma MulToReal(a: int, b: int)
    ensures (a * b) as real == a as real * b as real
  {
  }

  lemma RealQuotientAtMost(t: real, d: real, n: real)
    requires 0.0 < d && t <= n * d
    ensures t / d <= n
  {
    var x := t / d;
    assert x * d == t;
    assert (n - x) * d == n * d - x * d;
    NonNegativeFactor(n - x, d);
  }

  lemma QuotientAtMost(total: nat, size: nat, n: nat)
    requires 0 < size && 0 < total <= n * size && (n - 1) * size < total
    ensures n <= total && total as real / size as real <= n as real
  {
    MulToReal(n, size);
    RealQuotientAtMost(total as real, size as real, n as real);
    if n > total {
      MulMonotone(total, n - 1, size);
      MulMonotone(1, size, total);
    }
  }

  /** The rounded quotient lies above n - 1 and not above n. */
  lemma RoundedQuotient(total: nat, size: nat, n: nat)
    requires 0 < size <= 100 && 0 < total <= n * size && (n - 1) * size < total && total as real <= TWO53
    ensures Ceil(Float64(total as real / size as real)) == n
  {
    var t, d := total as real, size as real;
    MulToReal(n - 1, size);
    QuotientClears(t, d, (n - 1) as real);
    FloatClose(t / d);
    QuotientAtMost(total, size, n);
    FloatMonotone(t / d, n as real);
    FloatOfInt(n);
    CeilBetween(Float64(t / d), n - 1);
  }

  /** For every total up to 2^53 the float64 page count is the exact integer ceiling. */
  lemma TotalPagesExact(total: nat, size: nat)
    requires 0 < size <= 100 && total as real <= TWO53
    ensures TotalPages(total, size) == CeilDiv(total, size)
  {
    CeilBounds(total, size);
    if total > 0 {
      FloatOfInt(total);
      FloatOfInt(size);
      RoundedQuotient(total, size, CeilDiv(total, size));
    }
  }

  /** One past 2^53 the count of one-row pages is wrong. */
  lemma TotalPagesInexact(total: nat)
    requires total == 9007199254740993
    ensures TotalPages(total, 1) == CeilDiv(total, 1) - 1
  {
    assert Float64(total as real / 2.0) == TWO52;
    assert Float64(total as real) == TWO53;
    FloatOfInt(1);
    FloatOfTwo53();
  }

  /** Every page count up to this total is right, whatever the page size. */
  ghost predicate PageCountsRight(bound: nat) {
    forall total: nat, size: nat :: total <= bound && 1 <= size <= 100 ==> TotalPages(total, size) == CeilDiv(total, size)
  }

  /** The float64 page count is right up to a bound if and only if the bound is at most 2^53. */
  lemma PageCountsRightIff(bound: nat)
    ensures PageCountsRight(bound) <==> bound <= 9007199254740992
  {
    if bound <= 9007199254740992 {
      forall total: nat, size: nat | total <= bound && 1 <= size <= 100
        ensures TotalPages(total, size) == CeilDiv(total, size)
      {
        TotalPagesExact(total, size);
      }
    } else {
      TotalPagesInexact(9007199254740993);
    }
  }

  // ---- Browsing ----

  /**
   Asking for pages 1 to TotalPages, as the first answer reports it from its separate COUNT, returns every matching
   job exactly once and in order: each answer is its page, and joined they are the list.
   */
  lemma BrowsingSeesEveryJob(db: Db, like: Like, f: Filter, size: nat, early: bool)
    requires ContentSound(db) && 0 < size <= 100 && |Counted(db, like, f)| as real <= TWO53
    ensures var list, pages := JobList(db, like, f), TotalPages(|Counted(db, like, f)|, size);
      && 0 <= pages && Pages(list, size, pages) == list
      && forall page: nat :: 1 <= page <= pages ==> Response(list, page, size, early) == Success(Page(list, page, size))
  {
    var list, pages := JobList(db, like, f), TotalPages(|Counted(db, like, f)|, size);
    CountIsListLength(db, like, f);
    TotalPagesExact(|list|, size);
    PagesTile(list, size);
    forall page: nat | 1 <= page <= pages
      ensures Response(list, page, size, early) == Success(Page(list, page, size))
    {
      PageEmptyIff(|list|, size, page);
      FitsIff(page, size);
      ResponseRightIff(list, page, size, early);
    }
  }
}
