/**
 * The overview page: its load state, the "time ago" label of each recent
 * activity entry and the trend arrow of the statistic cards.
 */
module DashboardPage {
  import opened Wrappers
  import Text
  import opened ReportTypes
  import opened UserTypes
  import opened Firestore
  import DashboardService

  const HOUR := 1000 * 60 * 60
  const DAY := 24 * HOUR
  const JUST_NOW := "Just now"
  const HOURS_SUFFIX := "h ago"
  const DAYS_SUFFIX := "d ago"
  const LOAD_ERROR := "Failed to load dashboard data. Please try again."

  /**
   * `Math.floor(a / b)` for a positive divisor. Dafny's `/` on `int` rounds
   * toward negative infinity when `b > 0`, as `Math.floor` does.
   */
  function FloorDiv(a: int, b: int): (q: int)
    requires b > 0
    ensures b * q <= a < b * (q + 1)
  {
    a / b
  }

  /**
   * `formatTimeAgo(date)` at the instant `now` (milliseconds). Less than a
   * whole hour, including any time in the future, is 'Just now'; then whole
   * hours up to 23; then whole days, each rounded down.
   */
  function FormatTimeAgo(now: Time, date: Time): (shown: string)
    ensures shown == JUST_NOW <==> now - date < HOUR
    ensures HOUR <= now - date < DAY ==> shown == Text.NatToString((now - date) / HOUR) + HOURS_SUFFIX
    ensures now - date >= DAY ==> shown == Text.NatToString((now - date) / DAY) + DAYS_SUFFIX
  {
    var diffInHours := FloorDiv(now - date, HOUR);
    TimeAgoCases(now - date, diffInHours);
    if diffInHours < 1 then JUST_NOW
    else if diffInHours < 24 then Ago(diffInHours, HOURS_SUFFIX)
    else Ago(FloorDiv(diffInHours, 24), DAYS_SUFFIX)
  }

  /** `${n}h ago` or `${n}d ago` for a positive count: never 'Just now'. */
  function Ago(n: int, suffix: string): (shown: string)
    requires n >= 1 && |suffix| > 0 && suffix[|suffix| - 1] == 'o'
    ensures shown == Text.NatToString(n) + suffix && shown != JUST_NOW
  {
    NotJustNow(Text.IntToString(n), suffix);
    Text.IntToString(n) + suffix
  }

  /** Which branch the whole hours select, stated on the elapsed milliseconds. */
  lemma TimeAgoCases(diff: int, h: int)
    requires HOUR * h <= diff < HOUR * (h + 1)
    ensures h < 1 <==> diff < HOUR
    ensures 1 <= h < 24 <==> HOUR <= diff < DAY
    ensures 1 <= h < 24 ==> h == diff / HOUR
    ensures h >= 24 ==> diff >= DAY && FloorDiv(h, 24) == diff / DAY
  {
    if h >= 24 {
      DaysOfHours(diff, h, FloorDiv(h, 24));
    }
  }

  /** A label ending in 'o' is not 'Just now'. */
  lemma NotJustNow(n: string, suffix: string)
    requires |suffix| > 0 && suffix[|suffix| - 1] == 'o'
    ensures n + suffix != JUST_NOW
  {
    var s := n + suffix;
    assert s[|s| - 1] == 'o';
  }

  /** Rounding down to hours and then to days is rounding down to days. */
  lemma DaysOfHours(diff: int, h: int, d: int)
    requires HOUR * h <= diff < HOUR * (h + 1)
    requires 24 * d <= h < 24 * (d + 1)
    ensures d == diff / DAY
  {
    assert DAY * d <= diff by {
      assert DAY * d == HOUR * (24 * d);
    }
    assert diff < DAY * (d + 1) by {
      assert HOUR * (h + 1) <= HOUR * (24 * (d + 1));
    }
  }

  /** The number in front of a suffix, read back. */
  function Count(shown: string, suffix: string): nat
    requires |shown| >= |suffix|
  {
    Text.ParseNat(shown[..|shown| - |suffix|])
  }

  /** An hours label names the whole hours elapsed, from 1 to 23. */
  lemma HoursLabelReadsBack(now: Time, date: Time)
    requires HOUR <= now - date < DAY
    ensures var shown := FormatTimeAgo(now, date);
      |shown| > |HOURS_SUFFIX| && shown[|shown| - |HOURS_SUFFIX|..] == HOURS_SUFFIX &&
      1 <= Count(shown, HOURS_SUFFIX) < 24 &&
      HOUR * Count(shown, HOURS_SUFFIX) <= now - date < HOUR * (Count(shown, HOURS_SUFFIX) + 1)
  {
    var shown := FormatTimeAgo(now, date);
    var n := FloorDiv(now - date, HOUR);
    assert shown == Text.NatToString(n) + HOURS_SUFFIX;
    assert shown[..|shown| - |HOURS_SUFFIX|] == Text.NatToString(n);
    assert shown[|shown| - |HOURS_SUFFIX|..] == HOURS_SUFFIX;
    Text.NatToStringRoundTrip(n);
    assert Count(shown, HOURS_SUFFIX) == n;
  }

  /** A days label names the whole days elapsed, at least one. */
  lemma DaysLabelReadsBack(now: Time, date: Time)
    requires now - date >= DAY
    ensures var shown := FormatTimeAgo(now, date);
      |shown| > |DAYS_SUFFIX| && shown[|shown| - |DAYS_SUFFIX|..] == DAYS_SUFFIX &&
      1 <= Count(shown, DAYS_SUFFIX) &&
      DAY * Count(shown, DAYS_SUFFIX) <= now - date < DAY * (Count(shown, DAYS_SUFFIX) + 1)
  {
    var shown := FormatTimeAgo(now, date);
    var n := FloorDiv(now - date, DAY);
    assert shown == Text.NatToString(n) + DAYS_SUFFIX;
    assert shown[..|shown| - |DAYS_SUFFIX|] == Text.NatToString(n);
    assert shown[|shown| - |DAYS_SUFFIX|..] == DAYS_SUFFIX;
    Text.NatToStringRoundTrip(n);
    assert Count(shown, DAYS_SUFFIX) == n;
  }

  /** Forty-seven hours are shown as one day, and a future instant as 'Just now'. */
  lemma TimeAgoExamples(t: Time)
    ensures FormatTimeAgo(t + 47 * HOUR, t) == "1d ago"
    ensures FormatTimeAgo(t + 5 * HOUR - 1, t) == "4h ago"
    ensures FormatTimeAgo(t, t + 1) == JUST_NOW
  {
    assert 47 * HOUR / DAY == 1;
    assert (5 * HOUR - 1) / HOUR == 4;
  }

  // ---------------------------------------------------------------------------
  // The statistic cards

  /** The coloured change shown beside a card's value. */
  datatype Trend = Trend(positive: bool, percent: nat)

  /**
   * A card's change: shown when the card has one, green with an up arrow
   * when it is truthy and not negative, that is strictly positive; zero
   * counts as a fall. The magnitude is shown without its sign.
   */
  function TrendOf(change: Option<int>): (t: Option<Trend>)
    ensures t.Some? <==> change.Some?
    ensures t.Some? ==> (t.value.positive <==> change.value > 0)
    ensures t.Some? ==> t.value.percent as int == (if change.value < 0 then -change.value else change.value)
  {
    match change
    case None => None
    case Some(c) =>
      var isPositive := c != 0 && c >= 0;
      Some(Trend(isPositive, if c < 0 then -c else c))
  }

  /** The four cards' fixed changes: residents, requests, revenue, active projects. */
  const CARD_CHANGES: seq<int> := [12, 8, -2, 4]

  /** Only the revenue card shows a fall, of 2%. */
  lemma OnlyRevenueFalls()
    ensures forall i :: 0 <= i < |CARD_CHANGES| ==>
      (TrendOf(Some(CARD_CHANGES[i])).value.positive <==> i != 2)
    ensures TrendOf(Some(CARD_CHANGES[2])) == Some(Trend(false, 2))
  {
  }

  // ---------------------------------------------------------------------------
  // The page

  /** What the page renders: the skeleton, the error box, nothing, or the cards. */
  datatype View = Skeleton | ErrorBox(message: string) | Blank | Cards(stats: DashboardService.DashboardStats)

  class Page {
    var stats: Option<DashboardService.DashboardStats>
    var loading: bool
    var error: Option<string>

    /** The page on mount, before the load effect finishes. */
    constructor()
      ensures stats == None && loading && error == None
    {
      stats := None;
      loading := true;
      error := None;
    }

    /** Loading wins over an error, an error over the statistics. */
    function Render(): (v: View)
      reads this
      ensures loading ==> v == Skeleton
      ensures !loading && error.Some? ==> v == ErrorBox(error.value)
      ensures v.Cards? <==> !loading && error.None? && stats.Some?
      ensures v.Cards? ==> stats == Some(v.stats)
    {
      if loading then Skeleton
      else if error.Some? then ErrorBox(error.value)
      else if stats.None? then Blank
      else Cards(stats.value)
    }

    /**
     * `loadDashboardData`, on mount and from the refresh button. When the
     * service call fails (`fails`), the error message is set and the last
     * statistics are kept, though the error box hides them.
     */
    method LoadDashboardData(db: Database, lookupFails: string -> bool, now: Time, fails: bool)
      modifies this
      ensures !loading
      ensures fails ==> error == Some(LOAD_ERROR) && stats == old(stats) && Render() == ErrorBox(LOAD_ERROR)
      ensures !fails ==> error == None && stats.Some? && Render() == Cards(stats.value)
      ensures !fails ==> DashboardService.Describes(stats.value, db.reports, db.users, lookupFails, now)
    {
      error := None;
      if fails {
        error := Some(LOAD_ERROR);
      } else {
        var dashboardStats := DashboardService.GetDashboardStats(db, lookupFails, now);
        stats := Some(dashboardStats);
      }
      loading := false;
    }
  }
}
