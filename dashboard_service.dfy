/**
 * The overview dashboard's figures: residents, reports, the revenue
 * estimate, active projects, the five most recent reports as activity
 * entries, and the fixed quick actions.
 */
module DashboardService {
  import opened Wrappers
  import Seqs
  import opened Js
  import opened ReportTypes
  import opened UserTypes
  import opened Firestore

  const RESIDENT_FEE := 25
  const REPORT_FEE := 15
  const PROJECT_FEE := 500
  const RECENT_LIMIT := 5
  const UNKNOWN_USER := "Unknown User"
  const SERVICE := "service"
  const REPORT_CREATED := "report_created"

  predicate IsResident(u: UserDoc) { u.userType == RESIDENT }

  /** An active project: 'in_progress' or the uppercase 'ASSIGNED'. */
  predicate IsActiveProject(r: ReportDoc) { r.status == Some(IN_PROGRESS) || r.status == Some(ASSIGNED) }

  /** `calculateRevenue`: a fee per resident, per report and per active project. */
  function CalculateRevenue(reports: seq<ReportDoc>, users: seq<UserDoc>): (revenue: nat)
    ensures revenue >= REPORT_FEE * |reports|
  {
    Seqs.Count(users, IsResident) * RESIDENT_FEE + |reports| * REPORT_FEE +
    Seqs.Count(reports, IsActiveProject) * PROJECT_FEE
  }

  /** One more report adds its fee, and the project fee on top when it is active. */
  lemma RevenuePerReport(reports: seq<ReportDoc>, r: ReportDoc, users: seq<UserDoc>)
    ensures CalculateRevenue(reports + [r], users) ==
      CalculateRevenue(reports, users) + REPORT_FEE + (if IsActiveProject(r) then PROJECT_FEE else 0)
  {
    Seqs.CountSnoc(reports, r, IsActiveProject);
  }

  /** One more resident adds the resident fee; any other user adds nothing. */
  lemma RevenuePerUser(reports: seq<ReportDoc>, users: seq<UserDoc>, u: UserDoc)
    ensures CalculateRevenue(reports, users + [u]) ==
      CalculateRevenue(reports, users) + (if IsResident(u) then RESIDENT_FEE else 0)
  {
    Seqs.CountSnoc(users, u, IsResident);
  }

  // ---------------------------------------------------------------------------
  // Recent activity

  datatype Activity = Activity(id: string, kind: string, description: string, timestamp: Time, user: string)

  /**
   * The creator's name: the `fullName` of the user whose document id is
   * `createdBy`, or 'Unknown User' when there is no creator, no such user, an
   * empty name, or the lookup fails (`lookupFails` says for which creators).
   */
  function CreatorName(users: map<string, UserDoc>, createdBy: Option<string>, lookupFails: string -> bool): (name: string)
    ensures name != UNKNOWN_USER ==>
      Truthy(createdBy) && !lookupFails(createdBy.value) && createdBy.value in users &&
      users[createdBy.value].fullName == name && name != ""
    ensures (Truthy(createdBy) && !lookupFails(createdBy.value) && createdBy.value in users &&
             users[createdBy.value].fullName != "") ==> name == users[createdBy.value].fullName
  {
    if Truthy(createdBy) && !lookupFails(createdBy.value) && createdBy.value in users && users[createdBy.value].fullName != ""
    then users[createdBy.value].fullName
    else UNKNOWN_USER
  }

  function ActivityOf(users: map<string, UserDoc>, lookupFails: string -> bool, now: Time): Snapshot<ReportDoc> -> Activity {
    (s: Snapshot<ReportDoc>) =>
      var name := CreatorName(users, s.data.createdBy, lookupFails);
      Activity(s.id, REPORT_CREATED, "New " + OrString(s.data.issueType, SERVICE) + " request from " + name,
               s.data.createdAt.GetOr(now), name)
  }

  /** `orderBy('createdAt', 'desc'), limit(5)` */
  function RecentDocs(reports: map<string, ReportDoc>): seq<Snapshot<ReportDoc>> {
    Seqs.Take(ReportsNewestFirst(Docs(reports)), RECENT_LIMIT)
  }

  /** `getRecentActivity`: one entry per recent report, in the query's order. */
  method GetRecentActivity(db: Database, lookupFails: string -> bool, now: Time) returns (activities: seq<Activity>)
    ensures activities == Seqs.Map(RecentDocs(db.reports), ActivityOf(db.users, lookupFails, now))
  {
    var docs := RecentDocs(db.reports);
    var f := ActivityOf(db.users, lookupFails, now);
    activities := [];
    var i := 0;
    while i < |docs|
      invariant 0 <= i <= |docs|
      invariant activities == Seqs.Map(docs[..i], f)
    {
      activities := activities + [f(docs[i])];
      Seqs.MapSnoc(docs, i, f);
      i := i + 1;
    }
    assert docs[..|docs|] == docs;
  }

  /** The query keeps at most five dated documents of the collection, newest first. */
  lemma RecentDocsFacts(reports: map<string, ReportDoc>)
    ensures |RecentDocs(reports)| <= RECENT_LIMIT
    ensures Seqs.Sorted(RecentDocs(reports), NewerReport)
    ensures forall i :: 0 <= i < |RecentDocs(reports)| ==>
      RecentDocs(reports)[i].id in reports && RecentDocs(reports)[i].data == reports[RecentDocs(reports)[i].id] &&
      RecentDocs(reports)[i].data.createdAt.Some?
  {
    var docs := Docs(reports);
    var sorted := ReportsNewestFirst(docs);
    var recent := RecentDocs(reports);
    Seqs.TakeSorted(sorted, RECENT_LIMIT, NewerReport);
    Seqs.PrefixMembers(recent, sorted);
    forall i | 0 <= i < |recent|
      ensures recent[i].id in reports && recent[i].data == reports[recent[i].id] && recent[i].data.createdAt.Some?
    {
      assert recent[i] in sorted;
      assert recent[i] in multiset(sorted);
      assert recent[i] in Seqs.Filter(docs, HasCreatedAt);
      var k :| 0 <= k < |docs| && docs[k] == recent[i];
    }
  }

  /** An entry carries its report's id and, for a dated report, its creation time. */
  lemma ActivityFields(users: map<string, UserDoc>, lookupFails: string -> bool, now: Time, s: Snapshot<ReportDoc>)
    ensures ActivityOf(users, lookupFails, now)(s).id == s.id
    ensures s.data.createdAt.Some? ==> ActivityOf(users, lookupFails, now)(s).timestamp == s.data.createdAt.value
  {
  }

  /** At most five entries, newest first, each for a dated report of the collection. */
  lemma RecentActivityFacts(reports: map<string, ReportDoc>, users: map<string, UserDoc>, lookupFails: string -> bool, now: Time)
    ensures var acts := Seqs.Map(RecentDocs(reports), ActivityOf(users, lookupFails, now));
      |acts| <= RECENT_LIMIT &&
      (forall i, j :: 0 <= i < j < |acts| ==> acts[i].timestamp >= acts[j].timestamp) &&
      (forall i :: 0 <= i < |acts| ==> acts[i].id in reports && reports[acts[i].id].createdAt == Some(acts[i].timestamp))
  {
    RecentDocsFacts(reports);
    ActivitiesOfStored(reports, users, lookupFails, now);
    ActivitiesNewestFirst(reports, users, lookupFails, now);
  }

  lemma ActivitiesOfStored(reports: map<string, ReportDoc>, users: map<string, UserDoc>, lookupFails: string -> bool, now: Time)
    requires forall i :: 0 <= i < |RecentDocs(reports)| ==>
      RecentDocs(reports)[i].id in reports && RecentDocs(reports)[i].data == reports[RecentDocs(reports)[i].id] &&
      RecentDocs(reports)[i].data.createdAt.Some?
    ensures var acts := Seqs.Map(RecentDocs(reports), ActivityOf(users, lookupFails, now));
      forall i :: 0 <= i < |acts| ==> acts[i].id in reports && reports[acts[i].id].createdAt == Some(acts[i].timestamp)
  {
    var recent := RecentDocs(reports);
    var acts := Seqs.Map(recent, ActivityOf(users, lookupFails, now));
    forall i | 0 <= i < |acts| ensures acts[i].id in reports && reports[acts[i].id].createdAt == Some(acts[i].timestamp) {
      ActivityFields(users, lookupFails, now, recent[i]);
    }
  }

  lemma ActivitiesNewestFirst(reports: map<string, ReportDoc>, users: map<string, UserDoc>, lookupFails: string -> bool, now: Time)
    requires Seqs.Sorted(RecentDocs(reports), NewerReport)
    requires forall i :: 0 <= i < |RecentDocs(reports)| ==> RecentDocs(reports)[i].data.createdAt.Some?
    ensures var acts := Seqs.Map(RecentDocs(reports), ActivityOf(users, lookupFails, now));
      forall i, j :: 0 <= i < j < |acts| ==> acts[i].timestamp >= acts[j].timestamp
  {
    var recent := RecentDocs(reports);
    var acts := Seqs.Map(recent, ActivityOf(users, lookupFails, now));
    forall i, j | 0 <= i < j < |acts| ensures acts[i].timestamp >= acts[j].timestamp {
      ActivityFields(users, lookupFails, now, recent[i]);
      ActivityFields(users, lookupFails, now, recent[j]);
      assert NewerReport(recent[i], recent[j]);
    }
  }

  // ---------------------------------------------------------------------------
  // Quick actions and the whole dashboard

  datatype QuickAction = QuickAction(id: string, caption: string, icon: string, path: string, description: string)

  /** `getQuickActions`: four fixed entries with distinct ids. */
  function GetQuickActions(): (actions: seq<QuickAction>)
    ensures |actions| == 4
    ensures forall i, j :: 0 <= i < j < |actions| ==> actions[i].id != actions[j].id
  {
    [QuickAction("create-report", "Create Report", "FileText", "/dashboard/reports/new", "Create a new service request"),
     QuickAction("view-analytics", "View Analytics", "TrendingUp", "/analytics", "View detailed analytics and insights"),
     QuickAction("manage-users", "Manage Users", "Users", "/dashboard/users", "Manage system users and permissions"),
     QuickAction("my-assignments", "My Assignments", "UserCheck", "/assignments", "View your assigned tasks and reports")]
  }

  datatype DashboardStats = DashboardStats(
    totalResidents: nat, totalReports: nat, revenue: nat, activeProjects: nat,
    recentActivity: seq<Activity>, quickActions: seq<QuickAction>)

  function Values<T>(docs: seq<Snapshot<T>>): seq<T> {
    Seqs.Map(docs, (s: Snapshot<T>) => s.data)
  }

  /**
   * What `getDashboardStats` returns for the collections: the resident and
   * report counts, the active-project count, the revenue over exactly those
   * counts, the recent activity and the quick actions.
   */
  predicate Describes(stats: DashboardStats, reports: map<string, ReportDoc>, users: map<string, UserDoc>,
                      lookupFails: string -> bool, now: Time)
  {
    stats.totalResidents == Seqs.Count(Values(Docs(users)), IsResident) &&
    stats.totalReports == |reports| &&
    stats.activeProjects == Seqs.Count(Values(Docs(reports)), IsActiveProject) &&
    stats.revenue == RESIDENT_FEE * stats.totalResidents + REPORT_FEE * stats.totalReports + PROJECT_FEE * stats.activeProjects &&
    stats.recentActivity == Seqs.Map(RecentDocs(reports), ActivityOf(users, lookupFails, now)) &&
    stats.quickActions == GetQuickActions()
  }

  /**
   * `getDashboardStats`. The revenue is the resident, report and project
   * fees over exactly the counts shown beside it; the project count is the
   * same 'in_progress'-or-'ASSIGNED' set the revenue charges for, so it never
   * exceeds the report count.
   */
  method GetDashboardStats(db: Database, lookupFails: string -> bool, now: Time) returns (stats: DashboardStats)
    ensures Describes(stats, db.reports, db.users, lookupFails, now)
    ensures stats.activeProjects <= stats.totalReports
    ensures |stats.recentActivity| <= RECENT_LIMIT
  {
    var users := Values(Docs(db.users));
    var reports := Values(Docs(db.reports));
    var recent := GetRecentActivity(db, lookupFails, now);
    var totalResidents := Seqs.Count(users, IsResident);
    var totalReports := |reports|;
    var revenue := CalculateRevenue(reports, users);
    var activeProjects := Seqs.Count(reports, IsActiveProject);
    RecentActivityFacts(db.reports, db.users, lookupFails, now);
    stats := DashboardStats(totalResidents, totalReports, revenue, activeProjects, recent, GetQuickActions());
  }
}
