/**
 * The analytics figures: the overview counters, the per-day trend series, the
 * department and staff-performance tables, the category table with its trend
 * against the previous thirty days, the date-range selection and the
 * satisfaction rate. Times are milliseconds; a day is a UTC day, numbered
 * from the epoch.
 */
module AnalyticsService {
  import opened Wrappers
  import Seqs
  import opened Js
  import opened ReportTypes
  import opened UserTypes
  import opened Firestore
  import Grouping

  // ---------------------------------------------------------------------------
  // Status buckets

  /** Counted as resolved: "resolved" or "closed". */
  predicate IsResolved(d: ReportDoc) {
    d.status == Some(RESOLVED) || d.status == Some(CLOSED)
  }

  /** Counted as pending: "ASSIGNED", "in_progress", "under_review", "ai_processed" or "verification_needed". */
  predicate IsPending(d: ReportDoc) {
    d.status == Some(ASSIGNED) || d.status == Some(IN_PROGRESS) || d.status == Some(UNDER_REVIEW) ||
    d.status == Some(AI_PROCESSED) || d.status == Some(VERIFICATION_NEEDED)
  }

  predicate ResolvedDoc(s: Snapshot<ReportDoc>) { IsResolved(s.data) }

  predicate PendingDoc(s: Snapshot<ReportDoc>) { IsPending(s.data) }

  predicate ResolvedOrPendingDoc(s: Snapshot<ReportDoc>) { IsResolved(s.data) || IsPending(s.data) }

  /** The two buckets never overlap, so together they count at most the reports they are drawn from. */
  lemma BucketsBounded(s: seq<Snapshot<ReportDoc>>)
    ensures Seqs.Count(s, ResolvedDoc) + Seqs.Count(s, PendingDoc) == Seqs.Count(s, ResolvedOrPendingDoc) <= |s|
  {
    Seqs.CountDisjoint(s, ResolvedDoc, PendingDoc, ResolvedOrPendingDoc);
  }

  /** A report is in a bucket exactly when its status is one of the seven listed: submitted, rejected and missing statuses are in neither. */
  lemma BucketedStatuses(d: ReportDoc)
    ensures IsResolved(d) || IsPending(d) <==>
      d.status.Some? && d.status.value in [RESOLVED, CLOSED, ASSIGNED, IN_PROGRESS, UNDER_REVIEW, AI_PROCESSED, VERIFICATION_NEEDED]
    ensures d.status == Some(SUBMITTED) || d.status == Some(REJECTED) || d.status.None? ==> !IsResolved(d) && !IsPending(d)
  {
  }

  // ---------------------------------------------------------------------------
  // Rounding

  /**
   * `Math.round(a / b)` for a positive `b`: the integer nearest to `a / b`,
   * halves rounded up.
   */
  function RoundDiv(a: int, b: int): (r: int)
    requires b > 0
    ensures b * (2 * r - 1) <= 2 * a < b * (2 * r + 1)
  {
    (2 * a + b) / (2 * b)
  }

  /** Rounding a quotient that lies between two integers gives a value between them. */
  lemma RoundDivBetween(a: int, b: int, lo: int, hi: int)
    requires b > 0 && lo * b <= a <= hi * b
    ensures lo <= RoundDiv(a, b) <= hi
  {
    var r := RoundDiv(a, b);
    assert b * (2 * hi + 1) == 2 * (hi * b) + b;
    assert b * (2 * lo - 1) == 2 * (lo * b) - b;
    MulCancel(b, 2 * r - 1, 2 * hi + 1);
    MulCancel(b, 2 * lo - 1, 2 * r + 1);
  }

  lemma MulCancel(b: int, x: int, y: int)
    requires b > 0 && b * x < b * y
    ensures x < y
  {
    MulMonotone(b, y, x);
  }

  lemma MulMonotone(b: int, x: int, y: int)
    requires b > 0
    ensures x <= y ==> b * x <= b * y
  {
    if x <= y {
      assert b * y == b * x + b * (y - x);
    }
  }

  /** An exact quotient is its own rounding. */
  lemma RoundDivExact(q: int, b: int)
    requires b > 0
    ensures RoundDiv(q * b, b) == q
  {
    RoundDivBetween(q * b, b, q, q);
  }

  // ---------------------------------------------------------------------------
  // getDateRange and getTimeRanges

  const DAY := 86400000

  /** The UTC day a time falls on. */
  function DayOf(t: Time): int { t / DAY }

  /** How many days back a range key reaches: "30d" and "90d" are recognised, anything else means seven. */
  function RangeDays(timeRange: string): (n: nat)
    ensures n == 7 || n == 30 || n == 90
    ensures n == 30 <==> timeRange == "30d"
    ensures n == 90 <==> timeRange == "90d"
  {
    if timeRange == "7d" then 7
    else if timeRange == "30d" then 30
    else if timeRange == "90d" then 90
    else 7
  }

  datatype DateRange = DateRange(start: Time, end: Time)

  /**
   * `getDateRange`: from midnight `RangeDays` days before today to the last
   * millisecond of today.
   */
  function GetDateRange(timeRange: string, now: Time): (r: DateRange)
    ensures r.start % DAY == 0 && (r.end + 1) % DAY == 0
    ensures r.start <= now <= r.end
    ensures DayOf(r.start) == DayOf(now) - RangeDays(timeRange) && DayOf(r.end) == DayOf(now)
    ensures r.end - r.start + 1 == (RangeDays(timeRange) + 1) * DAY
  {
    var today := DayOf(now);
    DayOfMidnight(today - RangeDays(timeRange), 0);
    DayOfMidnight(today, DAY - 1);
    DateRange((today - RangeDays(timeRange)) * DAY, (today + 1) * DAY - 1)
  }

  lemma DayOfMidnight(day: int, ms: int)
    requires 0 <= ms < DAY
    ensures DayOf(day * DAY + ms) == day
  {
  }

  datatype TimeRange = TimeRange(caption: string, value: string, days: nat)

  /** `getTimeRanges`: the three choices, each with the number of days its key selects. */
  function GetTimeRanges(): (r: seq<TimeRange>)
    ensures |r| == 3 && r[0].value != r[1].value && r[1].value != r[2].value && r[2].value != r[0].value
    ensures forall i :: 0 <= i < |r| ==> RangeDays(r[i].value) == r[i].days
  {
    [TimeRange("Last 7 days", "7d", 7), TimeRange("Last 30 days", "30d", 30), TimeRange("Last 90 days", "90d", 90)]
  }

  /** `where('createdAt', '>=', start)` and `where('createdAt', '<=', end)`; a report without `createdAt` matches neither. */
  function InRange(range: DateRange): Snapshot<ReportDoc> -> bool {
    (s: Snapshot<ReportDoc>) => s.data.createdAt.Some? && range.start <= s.data.createdAt.value <= range.end
  }

  function RangeReports(reports: map<string, ReportDoc>, range: DateRange): seq<Snapshot<ReportDoc>> {
    Seqs.Filter(Docs(reports), InRange(range))
  }

  // ---------------------------------------------------------------------------
  // calculateSatisfactionRate

  /** A rating that is neither `undefined` nor `null`. */
  predicate Rated(s: Snapshot<ReportDoc>) { s.data.rating.Some? }

  /** `reduce((sum, r) => sum + (r.rating || 0), 0)` */
  function SumRatings(s: seq<Snapshot<ReportDoc>>): int
    decreases |s|
  {
    if s == [] then 0 else OrInt(s[0].data.rating, 0) + SumRatings(s[1..])
  }

  /**
   * `calculateSatisfactionRate`, in tenths: the mean rating of the rated
   * reports rounded to one decimal, or 0 when no report is rated.
   */
  function SatisfactionRate(reports: seq<Snapshot<ReportDoc>>): (tenths: int)
    ensures Seqs.Count(reports, Rated) == 0 ==> tenths == 0
    ensures Seqs.Count(reports, Rated) > 0 ==>
      var n := Seqs.Count(reports, Rated);
      n * (2 * tenths - 1) <= 20 * SumRatings(Seqs.Filter(reports, Rated)) < n * (2 * tenths + 1)
  {
    var rated := Seqs.Filter(reports, Rated);
    if |rated| == 0 then 0 else RoundDiv(10 * SumRatings(rated), |rated|)
  }

  predicate OnScale(s: Snapshot<ReportDoc>) {
    s.data.rating.Some? ==> 1 <= s.data.rating.value <= 5
  }

  lemma {:induction false} SumRatingsOnScale(s: seq<Snapshot<ReportDoc>>)
    requires forall x :: x in s ==> Rated(x) && OnScale(x)
    ensures |s| <= SumRatings(s) <= 5 * |s|
    decreases |s|
  {
    if s != [] {
      assert s[0] in s;
      assert forall x :: x in s[1..] ==> x in s;
      SumRatingsOnScale(s[1..]);
    }
  }

  /** With every rating between 1 and 5 and at least one rating, the rate lies between 1.0 and 5.0. */
  lemma SatisfactionOnScale(reports: seq<Snapshot<ReportDoc>>)
    requires forall x :: x in reports ==> OnScale(x)
    requires Seqs.Count(reports, Rated) > 0
    ensures 10 <= SatisfactionRate(reports) <= 50
  {
    var rated := Seqs.Filter(reports, Rated);
    SumRatingsOnScale(rated);
    RoundDivBetween(10 * SumRatings(rated), |rated|, 10, 50);
  }

  // ---------------------------------------------------------------------------
  // getOverview

  datatype Overview = Overview(totalReports: nat, resolvedReports: nat, pendingReports: nat,
                               activeUsers: nat, satisfactionRate: int)

  /**
   * `getOverview`: the counters over the reports created in the range; the
   * user count is over all staff documents.
   */
  function GetOverview(reports: map<string, ReportDoc>, users: map<string, UserDoc>, timeRange: string, now: Time): (o: Overview)
    ensures o.resolvedReports + o.pendingReports <= o.totalReports
    ensures o.totalReports == 0 ==> o.satisfactionRate == 0
    ensures o.activeUsers <= |Docs(users)|
  {
    var inRange := RangeReports(reports, GetDateRange(timeRange, now));
    BucketsBounded(inRange);
    Overview(|inRange|, Seqs.Count(inRange, ResolvedDoc), Seqs.Count(inRange, PendingDoc),
             Seqs.Count(Docs(users), IsStaffDoc), SatisfactionRate(inRange))
  }

  /** A report counts towards the totals exactly when it was created in the range. */
  lemma OverviewCountsRange(reports: map<string, ReportDoc>, timeRange: string, now: Time, id: string)
    requires id in reports
    ensures var range := GetDateRange(timeRange, now);
      Snapshot(id, reports[id]) in RangeReports(reports, range) <==>
      reports[id].createdAt.Some? && range.start <= reports[id].createdAt.value <= range.end
  {
    DocsComplete(reports, id);
  }

  // ---------------------------------------------------------------------------
  // getReportTrends

  datatype Trend = Trend(day: int, created: nat, resolved: nat, pending: nat)

  datatype Bucket = Bucket(created: nat, resolved: nat, pending: nat)

  const NoReports := Bucket(0, 0, 0)

  /** `reportsByDate[day] || { created: 0, resolved: 0, pending: 0 }` */
  function Lookup(acc: map<int, Bucket>, day: int): Bucket {
    if day in acc then acc[day] else NoReports
  }

  /** One report added to its day's bucket: created always, then resolved, or else pending. */
  function Add(b: Bucket, d: ReportDoc): Bucket {
    if IsResolved(d) then Bucket(b.created + 1, b.resolved + 1, b.pending)
    else if IsPending(d) then Bucket(b.created + 1, b.resolved, b.pending + 1)
    else Bucket(b.created + 1, b.resolved, b.pending)
  }

  function CreatedDay(s: Snapshot<ReportDoc>): int { DayOf(s.data.createdAt.GetOr(0)) }

  function OnDay(day: int): Snapshot<ReportDoc> -> bool {
    (s: Snapshot<ReportDoc>) => CreatedDay(s) == day
  }

  function OnDayResolved(day: int): Snapshot<ReportDoc> -> bool {
    (s: Snapshot<ReportDoc>) => CreatedDay(s) == day && IsResolved(s.data)
  }

  function OnDayPending(day: int): Snapshot<ReportDoc> -> bool {
    (s: Snapshot<ReportDoc>) => CreatedDay(s) == day && IsPending(s.data)
  }

  /** The bucket of one day, counted directly. */
  function BucketOf(s: seq<Snapshot<ReportDoc>>, day: int): Bucket {
    Bucket(Seqs.Count(s, OnDay(day)), Seqs.Count(s, OnDayResolved(day)), Seqs.Count(s, OnDayPending(day)))
  }

  function TrendOn(s: seq<Snapshot<ReportDoc>>, day: int): Trend {
    var b := BucketOf(s, day);
    Trend(day, b.created, b.resolved, b.pending)
  }

  /** The reports of the range, oldest first (`orderBy('createdAt', 'asc')`). */
  function TrendReports(reports: map<string, ReportDoc>, range: DateRange): seq<Snapshot<ReportDoc>> {
    Seqs.SortBy(RangeReports(reports, range), OlderReport)
  }

  lemma BucketSnoc(s: seq<Snapshot<ReportDoc>>, x: Snapshot<ReportDoc>, day: int)
    ensures BucketOf(s + [x], day) == if CreatedDay(x) == day then Add(BucketOf(s, day), x.data) else BucketOf(s, day)
  {
    Seqs.CountSnoc(s, x, OnDay(day));
    Seqs.CountSnoc(s, x, OnDayResolved(day));
    Seqs.CountSnoc(s, x, OnDayPending(day));
  }

  /** `if (!acc[date]) acc[date] = {...}; acc[date].created++; ...` */
  function Grouped(acc: map<int, Bucket>, x: Snapshot<ReportDoc>): map<int, Bucket> {
    acc[CreatedDay(x) := Add(Lookup(acc, CreatedDay(x)), x.data)]
  }

  /** The grouping step keeps every day's bucket equal to the direct count. */
  lemma GroupStep(s: seq<Snapshot<ReportDoc>>, i: nat, acc: map<int, Bucket>)
    requires i < |s|
    requires forall day :: Lookup(acc, day) == BucketOf(s[..i], day)
    ensures forall day :: Lookup(Grouped(acc, s[i]), day) == BucketOf(s[..i + 1], day)
  {
    Seqs.PrefixSnoc(s, i);
    forall day ensures Lookup(Grouped(acc, s[i]), day) == BucketOf(s[..i + 1], day) {
      BucketSnoc(s[..i], s[i], day);
    }
  }

  /** The first loop of `getReportTrends`: the buckets of the days that have reports. */
  method GroupByDay(s: seq<Snapshot<ReportDoc>>) returns (acc: map<int, Bucket>)
    ensures forall day :: Lookup(acc, day) == BucketOf(s, day)
  {
    acc := map[];
    var i := 0;
    while i < |s|
      invariant 0 <= i <= |s|
      invariant forall day :: Lookup(acc, day) == BucketOf(s[..i], day)
    {
      GroupStep(s, i, acc);
      acc := Grouped(acc, s[i]);
      i := i + 1;
    }
    assert s[..|s|] == s;
  }

  /**
   * `getReportTrends`: one entry per day from the first day of the range to
   * today, in order, each holding the counts of the reports created that day
   * (zeros for a day without reports).
   */
  method GetReportTrends(db: Database, timeRange: string, now: Time) returns (trends: seq<Trend>)
    ensures trends == TrendSeries(TrendReports(db.reports, GetDateRange(timeRange, now)),
                                  DayOf(now) - RangeDays(timeRange), RangeDays(timeRange) + 1)
  {
    trends := TrendsOf(db.reports, timeRange, now);
  }

  /** The query on the range, then the two loops. */
  method TrendsOf(reports: map<string, ReportDoc>, timeRange: string, now: Time) returns (trends: seq<Trend>)
    ensures trends == TrendSeries(TrendReports(reports, GetDateRange(timeRange, now)),
                                  DayOf(now) - RangeDays(timeRange), RangeDays(timeRange) + 1)
  {
    var range := GetDateRange(timeRange, now);
    var first := DayOf(now) - RangeDays(timeRange);
    trends := Series(TrendReports(reports, range), range, first, RangeDays(timeRange) + 1);
  }

  /** The two loops of `getReportTrends` over the sorted reports of the range. */
  method Series(reports: seq<Snapshot<ReportDoc>>, range: DateRange, first: int, days: nat) returns (trends: seq<Trend>)
    requires range.start % DAY == 0 && range.end - range.start + 1 == days * DAY
    requires first == DayOf(range.start)
    ensures trends == TrendSeries(reports, first, days)
  {
    var acc := GroupByDay(reports);
    trends := FillDays(reports, acc, range, days);
  }

  /**
   * The second loop of `getReportTrends`: a cursor steps a day at a time from
   * the start of the range while it is not past the end, taking each day's
   * bucket or zeros.
   */
  method FillDays(reports: seq<Snapshot<ReportDoc>>, acc: map<int, Bucket>, range: DateRange, days: nat)
    returns (trends: seq<Trend>)
    requires forall day :: Lookup(acc, day) == BucketOf(reports, day)
    requires range.start % DAY == 0 && range.end - range.start + 1 == days * DAY
    ensures trends == TrendSeries(reports, DayOf(range.start), days)
  {
    var first := DayOf(range.start);
    trends := [];
    var current := range.start;
    while current <= range.end
      invariant current == range.start + |trends| * DAY
      invariant |trends| <= days
      invariant trends == TrendSeries(reports, first, |trends|)
      decreases range.end - current
    {
      DayOfMidnight(first + |trends|, 0);
      TrendSeriesSnoc(reports, first, |trends|);
      var day := DayOf(current);
      var b := Lookup(acc, day);
      trends := trends + [Trend(day, b.created, b.resolved, b.pending)];
      current := current + DAY;
    }
  }

  /** The entries of `n` consecutive days from day `first`. */
  function TrendSeries(s: seq<Snapshot<ReportDoc>>, first: int, n: nat): (r: seq<Trend>)
    ensures |r| == n
    ensures forall i :: 0 <= i < n ==> r[i] == TrendOn(s, first + i)
  {
    seq(n, i requires 0 <= i < n => TrendOn(s, first + i))
  }

  lemma TrendSeriesSnoc(s: seq<Snapshot<ReportDoc>>, first: int, n: nat)
    ensures TrendSeries(s, first, n + 1) == TrendSeries(s, first, n) + [TrendOn(s, first + n)]
  {
  }

  /** Each day's resolved and pending counts together are at most the reports created that day. */
  lemma TrendBounded(s: seq<Snapshot<ReportDoc>>, day: int)
    ensures TrendOn(s, day).resolved + TrendOn(s, day).pending <= TrendOn(s, day).created
  {
    var onDay := Seqs.Filter(s, OnDay(day));
    Seqs.FilterFilter(s, OnDay(day), ResolvedDoc, OnDayResolved(day));
    Seqs.FilterFilter(s, OnDay(day), PendingDoc, OnDayPending(day));
    BucketsBounded(onDay);
  }

  /** A day on which no report was created has an entry of zeros. */
  lemma EmptyDay(s: seq<Snapshot<ReportDoc>>, day: int)
    requires forall i :: 0 <= i < |s| ==> CreatedDay(s[i]) != day
    ensures TrendOn(s, day) == Trend(day, 0, 0, 0)
  {
    Seqs.FilterNone(s, OnDay(day));
    Seqs.FilterNone(s, OnDayResolved(day));
    Seqs.FilterNone(s, OnDayPending(day));
  }

  /** Every report of the range falls on one of the days the series lists. */
  lemma TrendsCoverRange(reports: map<string, ReportDoc>, timeRange: string, now: Time, x: Snapshot<ReportDoc>)
    requires x in TrendReports(reports, GetDateRange(timeRange, now))
    ensures DayOf(now) - RangeDays(timeRange) <= CreatedDay(x) <= DayOf(now)
  {
    var range := GetDateRange(timeRange, now);
    assert x in multiset(TrendReports(reports, range));
    assert x in RangeReports(reports, range);
    var t := x.data.createdAt.value;
    DayOfMonotone(range.start, t);
    DayOfMonotone(t, range.end);
  }

  lemma DayOfMonotone(a: Time, b: Time)
    requires a <= b
    ensures DayOf(a) <= DayOf(b)
  {
  }

  // ---------------------------------------------------------------------------
  // getDepartmentStats

  const UNASSIGNED := "Unassigned"

  /** `report.assignedDepartment || 'Unassigned'` */
  function DepartmentKey(s: Snapshot<ReportDoc>): string {
    OrString(s.data.assignedDepartment, UNASSIGNED)
  }

  datatype DepartmentStats = DepartmentStats(department: string, totalReports: nat, resolved: nat)

  /** The row the grouping builds for one department. */
  function DepartmentRow(s: seq<Snapshot<ReportDoc>>): string -> DepartmentStats {
    (k: string) => DepartmentStats(k, Seqs.Count(s, Grouping.KeyIs(DepartmentKey, k)),
                                   Seqs.Count(s, Grouping.KeyAnd(DepartmentKey, k, ResolvedDoc)))
  }

  predicate NotUnassigned(row: DepartmentStats) { row.department != UNASSIGNED }

  /** `sort((a, b) => b.totalReports - a.totalReports)` */
  predicate MoreReports(a: DepartmentStats, b: DepartmentStats) { a.totalReports >= b.totalReports }

  /** The table, from the reports in the order they were read. */
  function DepartmentTable(s: seq<Snapshot<ReportDoc>>): seq<DepartmentStats> {
    Seqs.SortBy(Seqs.Filter(Seqs.Map(Grouping.Keys(s, DepartmentKey), DepartmentRow(s)), NotUnassigned), MoreReports)
  }

  /**
   * `getDepartmentStats`: group every report by department, then keep the
   * rows other than "Unassigned", most reports first.
   */
  method GetDepartmentStats(db: Database) returns (rows: seq<DepartmentStats>)
    ensures rows == DepartmentTable(Docs(db.reports))
  {
    rows := DepartmentRows(Docs(db.reports));
  }

  /** The grouping loop and the row loop over the documents the query returns. */
  method DepartmentRows(reports: seq<Snapshot<ReportDoc>>) returns (rows: seq<DepartmentStats>)
    ensures rows == DepartmentTable(reports)
  {
    var keys, totals, resolved := Grouping.Tally(reports, DepartmentKey, ResolvedDoc);
    var f := DepartmentRow(reports);
    var values := [];
    var j := 0;
    while j < |keys|
      invariant 0 <= j <= |keys|
      invariant values == Seqs.Map(keys[..j], f)
    {
      values := values + [DepartmentStats(keys[j], totals[keys[j]], resolved[keys[j]])];
      Seqs.MapSnoc(keys, j, f);
      j := j + 1;
    }
    assert keys[..|keys|] == keys;
    rows := Seqs.SortBy(Seqs.Filter(values, NotUnassigned), MoreReports);
  }

  /** Every row: resolved at most total, some report behind it, not "Unassigned"; the rows are ordered by total. */
  lemma DepartmentTableFacts(s: seq<Snapshot<ReportDoc>>)
    ensures forall row :: row in DepartmentTable(s) ==>
      row.resolved <= row.totalReports && 0 < row.totalReports && row.department != UNASSIGNED
    ensures Seqs.Sorted(DepartmentTable(s), MoreReports)
  {
    var keys := Grouping.Keys(s, DepartmentKey);
    var values := Seqs.Map(keys, DepartmentRow(s));
    forall row | row in DepartmentTable(s)
      ensures row.resolved <= row.totalReports && 0 < row.totalReports && row.department != UNASSIGNED
    {
      Seqs.SortByMembers(Seqs.Filter(values, NotUnassigned), MoreReports);
      assert row in Seqs.Filter(values, NotUnassigned);
      var j :| 0 <= j < |values| && values[j] == row;
      DepartmentRowBounded(s, keys[j]);
    }
    Seqs.SortBySorted(Seqs.Filter(values, NotUnassigned), MoreReports);
  }

  lemma DepartmentRowBounded(s: seq<Snapshot<ReportDoc>>, k: string)
    requires k in Grouping.Keys(s, DepartmentKey)
    ensures DepartmentRow(s)(k).resolved <= DepartmentRow(s)(k).totalReports
    ensures DepartmentRow(s)(k).totalReports > 0
  {
    Seqs.FilterFilter(s, Grouping.KeyIs(DepartmentKey, k), ResolvedDoc, Grouping.KeyAnd(DepartmentKey, k, ResolvedDoc));
    Grouping.KeyCounted(s, DepartmentKey, k);
  }

  /** A department with a row has a report assigned to it by that name. */
  lemma ListedDepartmentHasReport(s: seq<Snapshot<ReportDoc>>, row: DepartmentStats)
    requires row in DepartmentTable(s)
    ensures row.department != UNASSIGNED && row.department != ""
    ensures exists i :: 0 <= i < |s| && s[i].data.assignedDepartment == Some(row.department)
  {
    var keys := Grouping.Keys(s, DepartmentKey);
    var values := Seqs.Map(keys, DepartmentRow(s));
    Seqs.SortByMembers(Seqs.Filter(values, NotUnassigned), MoreReports);
    assert row in Seqs.Filter(values, NotUnassigned);
    var j :| 0 <= j < |values| && values[j] == row;
    assert keys[j] in keys;
    var i :| 0 <= i < |s| && DepartmentKey(s[i]) == keys[j];
    assert s[i].data.assignedDepartment == Some(row.department);
  }

  /** A department named by some report, other than "" and "Unassigned", has a row. */
  lemma AssignedDepartmentListed(s: seq<Snapshot<ReportDoc>>, i: nat)
    requires i < |s| && s[i].data.assignedDepartment.Some?
    requires s[i].data.assignedDepartment.value !in {"", UNASSIGNED}
    ensures exists row :: row in DepartmentTable(s) && row.department == s[i].data.assignedDepartment.value
  {
    var d := s[i].data.assignedDepartment.value;
    var keys := Grouping.Keys(s, DepartmentKey);
    var values := Seqs.Map(keys, DepartmentRow(s));
    assert DepartmentKey(s[i]) == d;
    assert d in keys;
    var j :| 0 <= j < |keys| && keys[j] == d;
    var row := values[j];
    assert row == DepartmentRow(s)(d) && row in values;
    assert row in Seqs.Filter(values, NotUnassigned);
    Seqs.SortByMembers(Seqs.Filter(values, NotUnassigned), MoreReports);
    assert row in DepartmentTable(s);
  }

  // ---------------------------------------------------------------------------
  // getUserPerformance

  const UNKNOWN_USER := "Unknown User"
  const TOP_PERFORMERS := 10

  datatype UserPerformance = UserPerformance(
    userId: string, userName: string, department: string,
    assignedReports: nat, completedReports: nat, completionRate: int)

  /** `report.assignedTo === user.id` */
  function AssignedTo(id: string): Snapshot<ReportDoc> -> bool {
    (s: Snapshot<ReportDoc>) => s.data.assignedTo == Some(id)
  }

  /** The completion rate in tenths of a percent: `Math.round(completed / assigned * 100 * 10)`, or 0 with nothing assigned. */
  function CompletionRate(completed: nat, total: nat): (tenths: int)
    requires completed <= total
    ensures 0 <= tenths <= 1000
    ensures total == 0 || completed == 0 ==> tenths == 0
    ensures total > 0 && completed == total ==> tenths == 1000
  {
    if total > 0 then
      RoundDivBetween(1000 * completed, total, 0, 1000);
      if completed == 0 then RoundDivExact(0, total); 0
      else if completed == total then RoundDivExact(1000, total); 1000
      else RoundDiv(1000 * completed, total)
    else 0
  }

  function PerformanceOf(reports: seq<Snapshot<ReportDoc>>): Snapshot<UserDoc> -> UserPerformance {
    (u: Snapshot<UserDoc>) =>
      var mine := Seqs.Filter(reports, AssignedTo(u.id));
      var done := Seqs.Count(mine, ResolvedDoc);
      UserPerformance(u.id, if u.data.fullName != "" then u.data.fullName else UNKNOWN_USER,
                      OrString(u.data.department, UNASSIGNED), |mine|, done, CompletionRate(done, |mine|))
  }

  predicate HasAssignments(p: UserPerformance) { p.assignedReports > 0 }

  /** `sort((a, b) => b.completionRate - a.completionRate)` */
  predicate HigherRate(a: UserPerformance, b: UserPerformance) { a.completionRate >= b.completionRate }

  /**
   * `getUserPerformance`: one row per staff member with at least one report
   * whose `assignedTo` is their id, best completion rate first, at most ten.
   */
  function GetUserPerformance(reports: map<string, ReportDoc>, users: map<string, UserDoc>): (rows: seq<UserPerformance>)
    ensures |rows| <= TOP_PERFORMERS
    ensures Seqs.Sorted(rows, HigherRate)
    ensures forall p :: p in rows ==>
      0 < p.assignedReports && p.completedReports <= p.assignedReports && 0 <= p.completionRate <= 1000
  {
    var active := ActivePerformers(reports, users);
    var sorted := Seqs.SortBy(active, HigherRate);
    Seqs.SortBySorted(active, HigherRate);
    Seqs.TakeSorted(sorted, TOP_PERFORMERS, HigherRate);
    PerformanceRowsBounded(active, Seqs.Take(sorted, TOP_PERFORMERS));
    Seqs.Take(sorted, TOP_PERFORMERS)
  }

  /** The rows of the staff members with at least one assignment, in id order. */
  function ActivePerformers(reports: map<string, ReportDoc>, users: map<string, UserDoc>): (active: seq<UserPerformance>)
    ensures forall p :: p in active ==>
      0 < p.assignedReports && p.completedReports <= p.assignedReports && 0 <= p.completionRate <= 1000
    ensures forall u :: u in Docs(users) && IsStaffDoc(u) && HasAssignments(PerformanceOf(Docs(reports))(u)) ==>
      PerformanceOf(Docs(reports))(u) in active
  {
    var staff := Seqs.Filter(Docs(users), IsStaffDoc);
    var all := Seqs.Map(staff, PerformanceOf(Docs(reports)));
    StaffRowsBounded(Docs(reports), staff);
    StaffRowsKept(Docs(reports), Docs(users));
    Seqs.Filter(all, HasAssignments)
  }

  /** Filtering on an assignment keeps the row of every staff member who has one. */
  lemma StaffRowsKept(reports: seq<Snapshot<ReportDoc>>, users: seq<Snapshot<UserDoc>>)
    ensures forall u :: u in users && IsStaffDoc(u) && HasAssignments(PerformanceOf(reports)(u)) ==>
      PerformanceOf(reports)(u) in Seqs.Filter(Seqs.Map(Seqs.Filter(users, IsStaffDoc), PerformanceOf(reports)), HasAssignments)
  {
    forall u | u in users && IsStaffDoc(u) && HasAssignments(PerformanceOf(reports)(u))
      ensures PerformanceOf(reports)(u) in Seqs.Filter(Seqs.Map(Seqs.Filter(users, IsStaffDoc), PerformanceOf(reports)), HasAssignments)
    {
      Seqs.MapFilterMember(users, IsStaffDoc, PerformanceOf(reports), u);
    }
  }

  lemma StaffRowsBounded(reports: seq<Snapshot<ReportDoc>>, staff: seq<Snapshot<UserDoc>>)
    ensures forall p :: p in Seqs.Map(staff, PerformanceOf(reports)) ==>
      p.completedReports <= p.assignedReports && 0 <= p.completionRate <= 1000
  {
    var all := Seqs.Map(staff, PerformanceOf(reports));
    forall p | p in all ensures p.completedReports <= p.assignedReports && 0 <= p.completionRate <= 1000 {
      var j :| 0 <= j < |all| && all[j] == p;
      PerformanceBounded(reports, staff[j]);
    }
  }

  /** A row counts the member's reports, the resolved ones among them, and a rate in range. */
  lemma PerformanceBounded(reports: seq<Snapshot<ReportDoc>>, u: Snapshot<UserDoc>)
    ensures var p := PerformanceOf(reports)(u);
      p.userId == u.id && p.completedReports <= p.assignedReports && 0 <= p.completionRate <= 1000
  {
    var mine := Seqs.Filter(reports, AssignedTo(u.id));
    assert Seqs.Count(mine, ResolvedDoc) <= |mine|;
  }

  lemma PerformanceRowsBounded(active: seq<UserPerformance>, rows: seq<UserPerformance>)
    requires forall p :: p in active ==>
      0 < p.assignedReports && p.completedReports <= p.assignedReports && 0 <= p.completionRate <= 1000
    requires rows <= Seqs.SortBy(active, HigherRate)
    ensures forall p :: p in rows ==>
      0 < p.assignedReports && p.completedReports <= p.assignedReports && 0 <= p.completionRate <= 1000
  {
    Seqs.PrefixMembers(rows, Seqs.SortBy(active, HigherRate));
    Seqs.SortByMembers(active, HigherRate);
  }

  /**
   * A staff member to whom some report is assigned by id has a row among the
   * active performers, and in the table itself whenever no more than ten
   * members are active.
   */
  lemma AssignedStaffListed(reports: map<string, ReportDoc>, users: map<string, UserDoc>, id: string, rid: string)
    requires id in users && IsStaffDoc(Snapshot(id, users[id]))
    requires rid in reports && reports[rid].assignedTo == Some(id)
    ensures PerformanceOf(Docs(reports))(Snapshot(id, users[id])) in ActivePerformers(reports, users)
    ensures |ActivePerformers(reports, users)| <= TOP_PERFORMERS ==>
      PerformanceOf(Docs(reports))(Snapshot(id, users[id])) in GetUserPerformance(reports, users)
  {
    var u := Snapshot(id, users[id]);
    DocsComplete(users, id);
    AssignedRowCounts(reports, u, rid);
    ActiveListedWhenFew(reports, users, PerformanceOf(Docs(reports))(u));
  }

  lemma AssignedRowCounts(reports: map<string, ReportDoc>, u: Snapshot<UserDoc>, rid: string)
    requires rid in reports && reports[rid].assignedTo == Some(u.id)
    ensures HasAssignments(PerformanceOf(Docs(reports))(u))
  {
    DocsComplete(reports, rid);
    assert Snapshot(rid, reports[rid]) in Seqs.Filter(Docs(reports), AssignedTo(u.id));
  }

  lemma ActiveListedWhenFew(reports: map<string, ReportDoc>, users: map<string, UserDoc>, p: UserPerformance)
    requires p in ActivePerformers(reports, users)
    ensures |ActivePerformers(reports, users)| <= TOP_PERFORMERS ==> p in GetUserPerformance(reports, users)
  {
    Seqs.SortByMembers(ActivePerformers(reports, users), HigherRate);
  }

  /**
   * An active staff member cut from the table by the limit of ten has a
   * completion rate no higher than that of any member listed.
   */
  lemma CutPerformerRanksLower(reports: map<string, ReportDoc>, users: map<string, UserDoc>, p: UserPerformance)
    requires p in ActivePerformers(reports, users) && p !in GetUserPerformance(reports, users)
    ensures |GetUserPerformance(reports, users)| == TOP_PERFORMERS
    ensures forall q :: q in GetUserPerformance(reports, users) ==> q.completionRate >= p.completionRate
  {
    var active := ActivePerformers(reports, users);
    Seqs.SortBySorted(active, HigherRate);
    Seqs.SortByMembers(active, HigherRate);
    Seqs.TakeCutAfter(Seqs.SortBy(active, HigherRate), TOP_PERFORMERS, HigherRate, p);
  }

  /**
   * A staff member whose id no report carries in `assignedTo` gets no row,
   * even when reports hold their full name there.
   */
  lemma UnassignedStaffNotListed(reports: map<string, ReportDoc>, users: map<string, UserDoc>, id: string)
    requires forall r :: r in reports ==> reports[r].assignedTo != Some(id)
    ensures forall p :: p in GetUserPerformance(reports, users) ==> p.userId != id
  {
    forall p | p in GetUserPerformance(reports, users) ensures p.userId != id {
      var u := StaffOfRow(reports, users, p);
      IdleStaff(reports, u, id);
    }
  }

  /** Every row is the row of a staff member. */
  lemma StaffOfRow(reports: map<string, ReportDoc>, users: map<string, UserDoc>, p: UserPerformance)
    returns (u: Snapshot<UserDoc>)
    requires p in GetUserPerformance(reports, users)
    ensures u in Seqs.Filter(Docs(users), IsStaffDoc) && p == PerformanceOf(Docs(reports))(u)
  {
    var staff := Seqs.Filter(Docs(users), IsStaffDoc);
    var all := Seqs.Map(staff, PerformanceOf(Docs(reports)));
    RowIsActive(reports, users, p);
    assert p in all;
    var j :| 0 <= j < |all| && all[j] == p;
    u := staff[j];
  }

  lemma RowIsActive(reports: map<string, ReportDoc>, users: map<string, UserDoc>, p: UserPerformance)
    requires p in GetUserPerformance(reports, users)
    ensures p in ActivePerformers(reports, users)
  {
    var active := ActivePerformers(reports, users);
    Seqs.PrefixMembers(GetUserPerformance(reports, users), Seqs.SortBy(active, HigherRate));
    Seqs.SortByMembers(active, HigherRate);
  }

  lemma IdleStaff(reports: map<string, ReportDoc>, u: Snapshot<UserDoc>, id: string)
    requires forall r :: r in reports ==> reports[r].assignedTo != Some(id)
    ensures u.id == id ==> PerformanceOf(Docs(reports))(u).assignedReports == 0
  {
    if u.id == id {
      Seqs.FilterNone(Docs(reports), AssignedTo(id));
    }
  }

  // ---------------------------------------------------------------------------
  // getCategoryStats

  const OTHER_CATEGORY := "Other"
  const CATEGORY_LIMIT := 1000
  const TOP_CATEGORIES := 8
  const THIRTY_DAYS := 30 * DAY

  /** `report.category || 'Other'` */
  function CategoryKey(s: Snapshot<ReportDoc>): string {
    OrString(s.data.category, OTHER_CATEGORY)
  }

  /** Created in the last thirty days. */
  function Current(now: Time): Snapshot<ReportDoc> -> bool {
    (s: Snapshot<ReportDoc>) => s.data.createdAt.GetOr(0) >= now - THIRTY_DAYS
  }

  /** Created in the thirty days before those. */
  function Previous(now: Time): Snapshot<ReportDoc> -> bool {
    (s: Snapshot<ReportDoc>) => now - 2 * THIRTY_DAYS <= s.data.createdAt.GetOr(0) < now - THIRTY_DAYS
  }

  /**
   * The trend in whole percent: the rounded percentage change against the
   * previous period, or, with no previous reports, 100 when there are
   * current ones and 0 otherwise.
   */
  function CategoryTrend(count: nat, previous: nat): (trend: int)
    ensures previous > 0 ==> previous * (2 * trend - 1) <= 200 * (count - previous) < previous * (2 * trend + 1)
    ensures previous == 0 ==> trend == (if count > 0 then 100 else 0)
  {
    if previous > 0 then RoundDiv(100 * (count - previous), previous)
    else if count > 0 then 100 else 0
  }

  /** New categories count as up 100%; an unchanged count is 0%; a category gone is down 100%. */
  lemma CategoryTrendExamples(p: nat)
    ensures CategoryTrend(5, 0) == 100 && CategoryTrend(0, 0) == 0
    ensures p > 0 ==> CategoryTrend(p, p) == 0 && CategoryTrend(0, p) == -100 && CategoryTrend(2 * p, p) == 100
  {
    if p > 0 {
      RoundDivExact(0, p);
      RoundDivExact(-100, p);
      RoundDivExact(100, p);
    }
  }

  /** The trend has the sign of the change, or is zero. */
  lemma CategoryTrendSign(count: nat, previous: nat)
    ensures count >= previous ==> CategoryTrend(count, previous) >= 0
    ensures count == previous ==> CategoryTrend(count, previous) == 0
    ensures count <= previous ==> -100 <= CategoryTrend(count, previous) <= 0
  {
    if previous > 0 {
      var a := 100 * (count - previous);
      assert CategoryTrend(count, previous) == RoundDiv(a, previous);
      assert 0 * previous == 0;
      if count == previous {
        RoundDivExact(0, previous);
      } else if count > previous {
        MulMonotone(a, 1, previous);
        RoundDivBetween(a, previous, 0, a);
      } else {
        assert -100 * previous <= a;
        RoundDivBetween(a, previous, -100, 0);
      }
    }
  }

  datatype CategoryStats = CategoryStats(category: string, count: nat, trend: int)

  /** `orderBy('createdAt', 'desc')` and `limit(1000)` */
  function CategoryReports(reports: map<string, ReportDoc>): seq<Snapshot<ReportDoc>> {
    Seqs.Take(ReportsNewestFirst(Docs(reports)), CATEGORY_LIMIT)
  }

  function CategoryRow(current: seq<Snapshot<ReportDoc>>, previous: seq<Snapshot<ReportDoc>>): string -> CategoryStats {
    (k: string) =>
      CategoryStats(k, Seqs.Count(current, Grouping.KeyIs(CategoryKey, k)),
                    CategoryTrend(Seqs.Count(current, Grouping.KeyIs(CategoryKey, k)),
                                  Seqs.Count(previous, Grouping.KeyIs(CategoryKey, k))))
  }

  /** `sort((a, b) => b.count - a.count)` */
  predicate MoreCount(a: CategoryStats, b: CategoryStats) { a.count >= b.count }

  /** The rows of every category of the current period, in first-seen order. */
  function CategoryEntries(reports: seq<Snapshot<ReportDoc>>, now: Time): seq<CategoryStats> {
    var current := Seqs.Filter(reports, Current(now));
    Seqs.Map(Grouping.Keys(current, CategoryKey), CategoryRow(current, Seqs.Filter(reports, Previous(now))))
  }

  function CategoryTable(reports: seq<Snapshot<ReportDoc>>, now: Time): seq<CategoryStats> {
    Seqs.Take(Seqs.SortBy(CategoryEntries(reports, now), MoreCount), TOP_CATEGORIES)
  }

  /** The loop over the current categories: one row per key, with the key's previous count or 0. */
  method CategoryRows(current: seq<Snapshot<ReportDoc>>, previous: seq<Snapshot<ReportDoc>>, keys: seq<string>,
                      counts: map<string, nat>, previousKeys: seq<string>, previousCounts: map<string, nat>)
    returns (entries: seq<CategoryStats>)
    requires forall k :: k in keys ==> k in counts && counts[k] == Seqs.Count(current, Grouping.KeyIs(CategoryKey, k))
    requires previousKeys == Grouping.Keys(previous, CategoryKey)
    requires forall k :: k in previousCounts <==> k in previousKeys
    requires forall k :: k in previousKeys ==> previousCounts[k] == Seqs.Count(previous, Grouping.KeyIs(CategoryKey, k))
    ensures entries == Seqs.Map(keys, CategoryRow(current, previous))
  {
    var f := CategoryRow(current, previous);
    entries := [];
    var j := 0;
    while j < |keys|
      invariant 0 <= j <= |keys|
      invariant entries == Seqs.Map(keys[..j], f)
    {
      var k := keys[j];
      var c := counts[k];
      var p := if k in previousCounts then previousCounts[k] else 0;
      if k !in previousKeys {
        Grouping.CountAbsentKey(previous, CategoryKey, k);
      }
      RowOfCounts(current, previous, k, c, p);
      entries := entries + [CategoryStats(k, c, CategoryTrend(c, p))];
      Seqs.MapSnoc(keys, j, f);
      j := j + 1;
    }
    assert keys[..|keys|] == keys;
  }

  /** The row of a category, from its counts in the two periods. */
  lemma RowOfCounts(current: seq<Snapshot<ReportDoc>>, previous: seq<Snapshot<ReportDoc>>, k: string, c: nat, p: nat)
    requires c == Seqs.Count(current, Grouping.KeyIs(CategoryKey, k))
    requires p == Seqs.Count(previous, Grouping.KeyIs(CategoryKey, k))
    ensures CategoryRow(current, previous)(k) == CategoryStats(k, c, CategoryTrend(c, p))
  {
  }

  /**
   * `getCategoryStats`: count the categories of the last thirty days and of
   * the thirty before, pair each current category with its trend, most
   * reports first, at most eight.
   */
  method GetCategoryStats(db: Database, now: Time) returns (rows: seq<CategoryStats>)
    ensures rows == CategoryTable(CategoryReports(db.reports), now)
  {
    var reports := CategoryReports(db.reports);
    var current := Seqs.Filter(reports, Current(now));
    var previous := Seqs.Filter(reports, Previous(now));
    var keys, counts := Grouping.CountBy(current, CategoryKey);
    var previousKeys, previousCounts := Grouping.CountBy(previous, CategoryKey);
    var entries := CategoryRows(current, previous, keys, counts, previousKeys, previousCounts);
    rows := Seqs.Take(Seqs.SortBy(entries, MoreCount), TOP_CATEGORIES);
  }

  function SumRowCounts(rows: seq<CategoryStats>): nat
    decreases |rows|
  {
    if rows == [] then 0 else rows[0].count + SumRowCounts(rows[1..])
  }

  lemma {:induction false} RowSumsAreCounts(current: seq<Snapshot<ReportDoc>>, previous: seq<Snapshot<ReportDoc>>, ks: seq<string>)
    ensures SumRowCounts(Seqs.Map(ks, CategoryRow(current, previous))) == Grouping.SumCounts(current, CategoryKey, ks)
    decreases |ks|
  {
    if ks != [] {
      var m := Seqs.Map(ks, CategoryRow(current, previous));
      assert m[1..] == Seqs.Map(ks[1..], CategoryRow(current, previous));
      RowSumsAreCounts(current, previous, ks[1..]);
    }
  }

  /**
   * Before the cut to eight, the category counts partition the reports of the
   * current period: each such report is counted under exactly one category.
   */
  lemma CategoriesPartitionCurrent(reports: seq<Snapshot<ReportDoc>>, now: Time)
    ensures SumRowCounts(CategoryEntries(reports, now)) == Seqs.Count(reports, Current(now))
  {
    var current := Seqs.Filter(reports, Current(now));
    RowSumsAreCounts(current, Seqs.Filter(reports, Previous(now)), Grouping.Keys(current, CategoryKey));
    Grouping.CountsPartition(current, CategoryKey);
  }

  /** At most eight rows, most reports first, each for a category seen in the current period. */
  lemma CategoryTableFacts(reports: seq<Snapshot<ReportDoc>>, now: Time)
    ensures |CategoryTable(reports, now)| <= TOP_CATEGORIES
    ensures Seqs.Sorted(CategoryTable(reports, now), MoreCount)
    ensures forall row :: row in CategoryTable(reports, now) ==> row.count > 0
  {
    var entries := CategoryEntries(reports, now);
    var current := Seqs.Filter(reports, Current(now));
    var keys := Grouping.Keys(current, CategoryKey);
    Seqs.SortBySorted(entries, MoreCount);
    Seqs.TakeSorted(Seqs.SortBy(entries, MoreCount), TOP_CATEGORIES, MoreCount);
    Seqs.PrefixMembers(CategoryTable(reports, now), Seqs.SortBy(entries, MoreCount));
    Seqs.SortByMembers(entries, MoreCount);
    forall row | row in CategoryTable(reports, now) ensures row.count > 0 {
      assert row in entries;
      var j :| 0 <= j < |entries| && entries[j] == row;
      assert keys[j] in keys;
      Grouping.KeyCounted(current, CategoryKey, keys[j]);
    }
  }
}
