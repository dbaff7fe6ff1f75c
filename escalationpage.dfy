/**
 * The 46–90-day escalation bucket (src/pages/EscalationPage.tsx): which
 * invoice entries are between 46 and 90 days overdue, how many there are,
 * what they owe, and what share of all invoices and of the whole outstanding
 * balance they make up.
 *
 * Instants are whole milliseconds since the epoch. Turning a parsed due date
 * into an instant is the host's `Date` constructor, passed in as `timeOf`
 * (`None` is an invalid date, whose time is `NaN`); the current instant is
 * passed in as `todayMs`.
 */
module EscalationPage {
  import opened Wrappers
  import opened JsStrings
  import opened AccountingApi

  /* ---------------------------------------------------------------- */
  /*                           Due dates                              */
  /* ---------------------------------------------------------------- */

  /** What the due-date parser hands to the `Date` constructor: either the
      year, month index and day read from an `M/D/Y` string (`None` for a
      part that is not a number), or the whole string for generic parsing. */
  datatype DueDate =
    | CalendarDate(year: Option<int>, monthIndex: Option<int>, day: Option<int>)
    | DateString(text: string)

  /** The zero-based month index of a month number; `NaN` stays `NaN`. */
  function MonthIndex(month: Option<int>): (index: Option<int>)
    ensures index.Some? <==> month.Some?
    ensures month.Some? ==> index.value + 1 == month.value
  {
    if month.Some? then Some(month.value - 1) else None
  }

  /** A string with exactly two slashes is read as month, day and year, each
      with `parseInt`; the month index is one less than the month and the
      year is taken as written. Any other string is left whole. */
  function ParseDueDate(value: string): (d: DueDate)
    ensures d.CalendarDate? <==> Count(value, '/') == 2
    ensures d.DateString? ==> d.text == value
  {
    var parts := Split(value, '/');
    if |parts| == 3 then
      CalendarDate(ParseInt(parts[2]), MonthIndex(ParseInt(parts[0])), ParseInt(parts[1]))
    else DateString(value)
  }

  /** `M/D/Y` written with digits, zero-padded or not (`03/02/23` as well as
      `3/2/2023`), reads back as year `Y`, month index `M - 1` and day `D`,
      with no adjustment of the year. */
  lemma ParseDueDateMdy(ms: string, ds: string, ys: string)
    requires ms != [] && AllDigits(ms)
    requires ds != [] && AllDigits(ds)
    requires ys != [] && AllDigits(ys)
    ensures ParseDueDate(ms + "/" + ds + "/" + ys)
         == CalendarDate(Some(DigitsValue(ys)), Some(DigitsValue(ms) - 1), Some(DigitsValue(ds)))
  {
    MdyPieces(ms, ds, ys);
    ParseDueDateOfDigits(ms + "/" + ds + "/" + ys, ms, ds, ys);
  }

  /** Three runs of digits joined by slashes split back into those runs. */
  lemma MdyPieces(ms: string, ds: string, ys: string)
    requires AllDigits(ms) && AllDigits(ds) && AllDigits(ys)
    ensures Split(ms + "/" + ds + "/" + ys, '/') == [ms, ds, ys]
  {
    NoSlashInDigits(ms);
    NoSlashInDigits(ds);
    NoSlashInDigits(ys);
    assert ms + "/" + ds + "/" + ys == ms + ['/'] + (ds + ['/'] + ys);
    SplitThreePieces(ms, ds, ys);
  }

  /** A date string whose three pieces are runs of digits. */
  lemma ParseDueDateOfDigits(value: string, ms: string, ds: string, ys: string)
    requires Split(value, '/') == [ms, ds, ys]
    requires ms != [] && AllDigits(ms)
    requires ds != [] && AllDigits(ds)
    requires ys != [] && AllDigits(ys)
    ensures ParseDueDate(value)
         == CalendarDate(Some(DigitsValue(ys)), Some(DigitsValue(ms) - 1), Some(DigitsValue(ds)))
  {
    ParseDueDateOfPieces(value, ms, ds, ys);
    YearAndDayOfDigits(value, ms, ds, ys);
    MonthOfDigits(value, ms, ds, ys);
  }

  lemma YearAndDayOfDigits(value: string, ms: string, ds: string, ys: string)
    requires Split(value, '/') == [ms, ds, ys]
    requires ds != [] && AllDigits(ds)
    requires ys != [] && AllDigits(ys)
    ensures ParseDueDate(value).year == Some(DigitsValue(ys))
    ensures ParseDueDate(value).day == Some(DigitsValue(ds))
  {
    ParseIntDigits(ds);
    ParseIntDigits(ys);
    ParseDueDateOfPieces(value, ms, ds, ys);
  }

  lemma MonthOfDigits(value: string, ms: string, ds: string, ys: string)
    requires Split(value, '/') == [ms, ds, ys]
    requires ms != [] && AllDigits(ms)
    ensures ParseDueDate(value).monthIndex.Some?
    ensures ParseDueDate(value).monthIndex.value + 1 == DigitsValue(ms)
  {
    ParseIntDigits(ms);
    ParseDueDateOfPieces(value, ms, ds, ys);
  }

  lemma NoSlashInDigits(s: string)
    requires AllDigits(s)
    ensures '/' !in s
  {
    assert !IsDigit('/');
  }

  lemma SplitThreePieces(a: string, b: string, c: string)
    requires '/' !in a && '/' !in b && '/' !in c
    ensures Split(a + ['/'] + (b + ['/'] + c), '/') == [a, b, c]
  {
    SplitAfterPiece(a, '/', b + ['/'] + c);
    SplitAfterPiece(b, '/', c);
    SplitFirst(c, '/');
  }

  lemma ParseDueDateOfPieces(value: string, a: string, b: string, c: string)
    requires Split(value, '/') == [a, b, c]
    ensures ParseDueDate(value).CalendarDate?
    ensures ParseDueDate(value).year == ParseInt(c)
    ensures ParseDueDate(value).day == ParseInt(b)
    ensures ParseDueDate(value).monthIndex == MonthIndex(ParseInt(a))
  {
  }

  /* ---------------------------------------------------------------- */
  /*                         Days overdue                             */
  /* ---------------------------------------------------------------- */

  const MS_PER_DAY: int := 1000 * 60 * 60 * 24

  /** Whole days from `dueMs` to `todayMs`, rounded down: negative exactly
      when the due date lies in the future. */
  function DaysOverdue(todayMs: int, dueMs: int): (days: int)
    ensures days * MS_PER_DAY <= todayMs - dueMs < (days + 1) * MS_PER_DAY
    ensures days < 0 <==> todayMs < dueMs
  {
    (todayMs - dueMs) / MS_PER_DAY
  }

  /** Both ends of the bucket are included. */
  predicate In46To90(days: int) {
    46 <= days <= 90
  }

  /** A row belongs to the bucket when its due date is a valid instant and
      between 46 and 90 whole days before today; an invalid date compares
      false with both ends and is left out. */
  predicate InBucket(row: InvoiceEntry, todayMs: int, timeOf: DueDate -> Option<int>)
    ensures InBucket(row, todayMs, timeOf)
        <==> timeOf(ParseDueDate(row.dueDate)).Some?
             && 46 * MS_PER_DAY <= todayMs - timeOf(ParseDueDate(row.dueDate)).value < 91 * MS_PER_DAY
  {
    match timeOf(ParseDueDate(row.dueDate))
    case None => false
    case Some(dueMs) =>
      InBucketWindow(todayMs, dueMs);
      In46To90(DaysOverdue(todayMs, dueMs))
  }

  /** The bucket in milliseconds: from 46 whole days up to, not including,
      91 whole days after the due instant. */
  lemma InBucketWindow(todayMs: int, dueMs: int)
    ensures In46To90(DaysOverdue(todayMs, dueMs))
        <==> 46 * MS_PER_DAY <= todayMs - dueMs < 91 * MS_PER_DAY
  {
    var days := DaysOverdue(todayMs, dueMs);
    if days < 46 {
      assert (days + 1) * MS_PER_DAY <= 46 * MS_PER_DAY;
    }
    if days > 90 {
      assert days * MS_PER_DAY >= 91 * MS_PER_DAY;
    }
  }

  /* ---------------------------------------------------------------- */
  /*                         The bucket's rows                        */
  /* ---------------------------------------------------------------- */

  /** `xs` is `ys` with some elements left out, the rest in their order. */
  predicate IsSubsequence<T(==)>(xs: seq<T>, ys: seq<T>) {
    if xs == [] then true
    else if ys == [] then false
    else if xs[0] == ys[0] then IsSubsequence(xs[1..], ys[1..])
    else IsSubsequence(xs, ys[1..])
  }

  /** The rows of the bucket, in their original order. */
  function FilterRows46To90(rows: seq<InvoiceEntry>, todayMs: int, timeOf: DueDate -> Option<int>)
    : (kept: seq<InvoiceEntry>)
    ensures |kept| <= |rows|
    ensures IsSubsequence(kept, rows)
    ensures forall r :: r in kept ==> r in rows && InBucket(r, todayMs, timeOf)
    ensures forall r :: r in rows && InBucket(r, todayMs, timeOf) ==> r in kept
    ensures forall r :: multiset(kept)[r] == if InBucket(r, todayMs, timeOf) then multiset(rows)[r] else 0
  {
    if rows == [] then []
    else
      assert rows == [rows[0]] + rows[1..];
      var rest := FilterRows46To90(rows[1..], todayMs, timeOf);
      if InBucket(rows[0], todayMs, timeOf) then [rows[0]] + rest else rest
  }

  /* ---------------------------------------------------------------- */
  /*                        Counts and balances                       */
  /* ---------------------------------------------------------------- */

  /** A balance that is not a finite number counts as zero. */
  function FiniteOrZero(n: Number): real {
    if n.Finite? then n.value else 0.0
  }

  /** The sum of the rows' balances, added up from the first row on. */
  function SumBalances(rows: seq<InvoiceEntry>): (total: real)
    ensures (forall r :: r in rows ==> NonNegativeBalance(r)) ==> 0.0 <= total
  {
    if rows == [] then 0.0
    else
      assert forall r :: r in rows[..|rows| - 1] ==> r in rows;
      assert rows[|rows| - 1] in rows;
      SumBalances(rows[..|rows| - 1]) + FiniteOrZero(rows[|rows| - 1].openBalance)
  }

  lemma {:induction false} SumBalancesAppend(a: seq<InvoiceEntry>, b: seq<InvoiceEntry>)
    ensures SumBalances(a + b) == SumBalances(a) + SumBalances(b)
    decreases |b|
  {
    if b != [] {
      assert (a + b)[..|a + b| - 1] == a + b[..|b| - 1];
      SumBalancesAppend(a, b[..|b| - 1]);
    } else {
      assert a + b == a;
    }
  }

  lemma SumBalancesCons(r: InvoiceEntry, rows: seq<InvoiceEntry>)
    ensures SumBalances([r] + rows) == FiniteOrZero(r.openBalance) + SumBalances(rows)
  {
    SumBalancesAppend([r], rows);
    assert SumBalances([r]) == SumBalances([]) + FiniteOrZero(r.openBalance);
  }

  /** Each row's balance when it is in the bucket, zero otherwise, summed:
      the full sum restricted to the bucket. */
  function RestrictedSum(rows: seq<InvoiceEntry>, todayMs: int, timeOf: DueDate -> Option<int>): real {
    if rows == [] then 0.0
    else
      (if InBucket(rows[0], todayMs, timeOf) then FiniteOrZero(rows[0].openBalance) else 0.0)
      + RestrictedSum(rows[1..], todayMs, timeOf)
  }

  /** The bucket's balance is the full sum restricted to the bucket's rows. */
  lemma {:induction false} BucketBalanceIsRestrictedSum(rows: seq<InvoiceEntry>, todayMs: int, timeOf: DueDate -> Option<int>)
    ensures SumBalances(FilterRows46To90(rows, todayMs, timeOf)) == RestrictedSum(rows, todayMs, timeOf)
  {
    if rows != [] {
      BucketBalanceIsRestrictedSum(rows[1..], todayMs, timeOf);
      var rest := FilterRows46To90(rows[1..], todayMs, timeOf);
      if InBucket(rows[0], todayMs, timeOf) {
        SumBalancesCons(rows[0], rest);
      }
    }
  }

  predicate NonNegativeBalance(r: InvoiceEntry) {
    0.0 <= FiniteOrZero(r.openBalance)
  }

  /** With no negative balance, the bucket's share lies between nothing and
      everything. */
  lemma {:induction false} RestrictedSumBounds(rows: seq<InvoiceEntry>, todayMs: int, timeOf: DueDate -> Option<int>)
    requires forall r :: r in rows ==> NonNegativeBalance(r)
    ensures 0.0 <= RestrictedSum(rows, todayMs, timeOf) <= SumBalances(rows)
  {
    if rows != [] {
      assert NonNegativeBalance(rows[0]);
      RestrictedSumBounds(rows[1..], todayMs, timeOf);
      assert rows == [rows[0]] + rows[1..];
      SumBalancesCons(rows[0], rows[1..]);
    }
  }

  /** `RestrictedSumBounds` with its precondition moved into the conclusion,
      so that the body of `EscalationMetrics`, an expression, can call it for
      every input without branching on the quantifier. */
  lemma BucketBalanceBounds(rows: seq<InvoiceEntry>, todayMs: int, timeOf: DueDate -> Option<int>)
    ensures (forall r :: r in rows ==> NonNegativeBalance(r)) ==>
              0.0 <= RestrictedSum(rows, todayMs, timeOf) <= SumBalances(rows)
  {
    if forall r :: r in rows ==> NonNegativeBalance(r) {
      RestrictedSumBounds(rows, todayMs, timeOf);
    }
  }

  /* ---------------------------------------------------------------- */
  /*                           Percentages                            */
  /* ---------------------------------------------------------------- */

  /** The bucket's share of the invoices in percent, zero when there are no
      invoices. */
  function PercentOfInvoices(bucketCount: nat, totalInvoices: nat): (pct: real)
    ensures totalInvoices == 0 ==> pct == 0.0
    ensures 0 < totalInvoices ==> pct * totalInvoices as real == bucketCount as real * 100.0
    ensures bucketCount <= totalInvoices ==> 0.0 <= pct <= 100.0
  {
    if totalInvoices > 0 then (bucketCount as real / totalInvoices as real) * 100.0 else 0.0
  }

  /** The bucket's share of the balance in percent, zero unless the total
      outstanding balance is positive, so a zero or negative total is never
      divided by. */
  function PercentOfBalance(bucketBalance: real, outstandingBalance: real): (pct: real)
    ensures outstandingBalance <= 0.0 ==> pct == 0.0
    ensures 0.0 < outstandingBalance ==> pct * outstandingBalance == bucketBalance * 100.0
    ensures 0.0 <= bucketBalance <= outstandingBalance ==> 0.0 <= pct <= 100.0
  {
    if outstandingBalance > 0.0 then (bucketBalance / outstandingBalance) * 100.0 else 0.0
  }

  /* ---------------------------------------------------------------- */
  /*                         The page's metrics                       */
  /* ---------------------------------------------------------------- */

  datatype Metrics = Metrics(
    bucketCount: nat,
    bucketBalance: real,
    totalInvoices: nat,
    outstandingBalance: real,
    pctInvoices46To90: real,
    pctBalance46To90: real)

  function EscalationMetrics(rows: seq<InvoiceEntry>, todayMs: int, timeOf: DueDate -> Option<int>)
    : (m: Metrics)
    ensures m.totalInvoices == |rows|
    ensures m.bucketCount == |FilterRows46To90(rows, todayMs, timeOf)| <= m.totalInvoices
    ensures m.bucketBalance == RestrictedSum(rows, todayMs, timeOf)
    ensures m.outstandingBalance == SumBalances(rows)
    ensures m.pctInvoices46To90 == PercentOfInvoices(m.bucketCount, m.totalInvoices)
    ensures m.pctBalance46To90 == PercentOfBalance(m.bucketBalance, m.outstandingBalance)
    ensures 0.0 <= m.pctInvoices46To90 <= 100.0
    ensures (forall r :: r in rows ==> NonNegativeBalance(r)) ==> 0.0 <= m.pctBalance46To90 <= 100.0
    ensures rows == [] ==> m == Metrics(0, 0.0, 0, 0.0, 0.0, 0.0)
  {
    var bucket := FilterRows46To90(rows, todayMs, timeOf);
    var bucketBalance := SumBalances(bucket);
    var outstandingBalance := SumBalances(rows);
    BucketBalanceIsRestrictedSum(rows, todayMs, timeOf);
    BucketBalanceBounds(rows, todayMs, timeOf);
    Metrics(
      |bucket|, bucketBalance, |rows|, outstandingBalance,
      PercentOfInvoices(|bucket|, |rows|),
      PercentOfBalance(bucketBalance, outstandingBalance))
  }
}
