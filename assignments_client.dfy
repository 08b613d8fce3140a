/**
 * The "my assignments" screen: the reports assigned to the signed-in user,
 * the search, status and priority filters over them, and the status
 * counters shown above the table.
 */
module AssignmentsClient {
  import opened Wrappers
  import Text
  import Seqs
  import opened ReportTypes
  import opened Firestore
  import ReportService

  const ALL := "all"

  /** `report.assignedTo === user.uid` */
  function AssignedTo(uid: string): Report -> bool {
    (r: Report) => r.assignedTo == Some(uid)
  }

  /** The reports of the signed-in user, in the order `getAllReports` returns them. */
  function MyReports(all: seq<Report>, uid: string): (mine: seq<Report>)
    ensures forall r :: r in mine <==> r in all && r.assignedTo == Some(uid)
    ensures Seqs.IsSubsequence(mine, all)
  {
    Seqs.FilterIsSubsequence(all, AssignedTo(uid));
    Seqs.Filter(all, AssignedTo(uid))
  }

  /**
   * The assignment writes the employee's full name into `assignedTo`, so a
   * report assigned that way reaches an employee's list only when the name
   * happens to equal the user id.
   */
  lemma AssignedByNameShownOnlyToThatName(r: Report, name: string, uid: string)
    requires r.assignedTo == Some(name)
    ensures r in MyReports([r], uid) <==> name == uid
  {
  }

  /** Title, description, issue type or address contains the term, ignoring case. */
  predicate ReportMatches(r: Report, term: string) {
    Text.ContainsIgnoringCase(r.title, term) ||
    Text.ContainsIgnoringCase(r.description, term) ||
    Text.ContainsIgnoringCase(r.issueType, term) ||
    Text.ContainsIgnoringCase(r.address, term)
  }

  function Matching(term: string): Report -> bool {
    (r: Report) => ReportMatches(r, term)
  }

  function HasStatus(s: string): Report -> bool {
    (r: Report) => r.status == s
  }

  function HasPriority(p: string): Report -> bool {
    (r: Report) => r.priority == p
  }

  function Pass(): Report -> bool {
    (r: Report) => true
  }

  /** The three stages as one test: an empty term and 'all' impose nothing. */
  predicate Shown(r: Report, term: string, status: string, priority: string) {
    (term != "" ==> ReportMatches(r, term)) &&
    (status != ALL ==> r.status == status) &&
    (priority != ALL ==> r.priority == priority)
  }

  function ShownBy(term: string, status: string, priority: string): Report -> bool {
    (r: Report) => Shown(r, term, status, priority)
  }

  /** What the filter effect shows. */
  function Visible(reports: seq<Report>, term: string, status: string, priority: string): seq<Report> {
    var filtered := if term != "" then Seqs.Filter(reports, Matching(term)) else reports;
    var filtered := if status != ALL then Seqs.Filter(filtered, HasStatus(status)) else filtered;
    if priority != ALL then Seqs.Filter(filtered, HasPriority(priority)) else filtered
  }

  /**
   * The shown list is the one filter of all three tests: an
   * order-preserving subsequence of the assigned reports holding exactly the
   * reports that pass every test.
   */
  lemma VisibleIsOneFilter(reports: seq<Report>, term: string, status: string, priority: string)
    ensures Visible(reports, term, status, priority) == Seqs.Filter(reports, ShownBy(term, status, priority))
    ensures Seqs.IsSubsequence(Visible(reports, term, status, priority), reports)
    ensures forall r :: r in Visible(reports, term, status, priority) <==> r in reports && Shown(r, term, status, priority)
  {
    var search, byStatus, byPriority := SearchStage(term), StatusStage(status), PriorityStage(priority);
    VisibleStages(reports, term, status, priority);
    var sp := (r: Report) => search(r) && byStatus(r);
    Seqs.FilterFilter(reports, search, byStatus, sp);
    Seqs.FilterFilter(reports, sp, byPriority, ShownBy(term, status, priority));
    Seqs.FilterIsSubsequence(reports, ShownBy(term, status, priority));
  }

  function SearchStage(term: string): Report -> bool {
    if term != "" then Matching(term) else Pass()
  }

  function StatusStage(status: string): Report -> bool {
    if status != ALL then HasStatus(status) else Pass()
  }

  function PriorityStage(priority: string): Report -> bool {
    if priority != ALL then HasPriority(priority) else Pass()
  }

  /** Each stage the effect skips is the filter that keeps everything. */
  lemma VisibleStages(reports: seq<Report>, term: string, status: string, priority: string)
    ensures Visible(reports, term, status, priority) ==
      Seqs.Filter(Seqs.Filter(Seqs.Filter(reports, SearchStage(term)), StatusStage(status)), PriorityStage(priority))
  {
    var s1 := if term != "" then Seqs.Filter(reports, Matching(term)) else reports;
    var s2 := if status != ALL then Seqs.Filter(s1, HasStatus(status)) else s1;
    Seqs.FilterAll(reports, Pass());
    Seqs.FilterAll(s1, Pass());
    Seqs.FilterAll(s2, Pass());
  }

  /** With no term and 'all' for both menus the assigned reports are shown as loaded. */
  lemma NoCriteriaShowsAll(reports: seq<Report>)
    ensures Visible(reports, "", ALL, ALL) == reports
  {
  }

  // ---------------------------------------------------------------------------
  // The counters

  datatype AssignmentStats = AssignmentStats(total: nat, inProgress: nat, resolved: nat, pending: nat)

  /** In progress: 'in_progress' or the uppercase 'ASSIGNED'. */
  predicate InProgressReport(r: Report) { r.status == IN_PROGRESS || r.status == ASSIGNED }

  /** Resolved: 'resolved' or 'closed'. */
  predicate ResolvedReport(r: Report) { r.status == RESOLVED || r.status == CLOSED }

  /** Pending: 'submitted', 'ai_processed', 'under_review' or 'verification_needed'. */
  predicate PendingReport(r: Report) {
    r.status == SUBMITTED || r.status == AI_PROCESSED || r.status == UNDER_REVIEW || r.status == VERIFICATION_NEEDED
  }

  predicate InProgressOrResolved(r: Report) { InProgressReport(r) || ResolvedReport(r) }

  /** The report falls in one of the three counters: any status but 'rejected' and unknown ones. */
  predicate Counted(r: Report) { InProgressOrResolved(r) || PendingReport(r) }

  /** `stats`, over the assigned reports whatever the filters show. */
  function StatsOf(reports: seq<Report>): (s: AssignmentStats)
    ensures s.total == |reports|
    ensures s.inProgress == Seqs.Count(reports, InProgressReport)
    ensures s.resolved == Seqs.Count(reports, ResolvedReport)
    ensures s.pending == Seqs.Count(reports, PendingReport)
  {
    AssignmentStats(|reports|, Seqs.Count(reports, InProgressReport), Seqs.Count(reports, ResolvedReport),
                    Seqs.Count(reports, PendingReport))
  }

  /**
   * The three counters are disjoint, so they add up to at most the total,
   * and exactly to it when no report is rejected or has an unknown status.
   */
  lemma CountersDisjoint(reports: seq<Report>)
    ensures StatsOf(reports).inProgress + StatsOf(reports).resolved + StatsOf(reports).pending <= StatsOf(reports).total
    ensures StatsOf(reports).inProgress + StatsOf(reports).resolved + StatsOf(reports).pending == StatsOf(reports).total
        <==> forall i :: 0 <= i < |reports| ==> Counted(reports[i])
  {
    Seqs.CountDisjoint(reports, InProgressReport, ResolvedReport, InProgressOrResolved);
    Seqs.CountDisjoint(reports, InProgressOrResolved, PendingReport, Counted);
    Seqs.CountAll(reports, Counted);
  }

  /** A rejected report is counted by none of the three. */
  lemma RejectedCountsNowhere(r: Report)
    requires r.status == REJECTED
    ensures StatsOf([r]) == AssignmentStats(1, 0, 0, 0)
  {
    assert Seqs.Filter([r], InProgressReport) == [];
    assert Seqs.Filter([r], ResolvedReport) == [];
    assert Seqs.Filter([r], PendingReport) == [];
  }

  // ---------------------------------------------------------------------------
  // The screen

  class Screen {
    const uid: string
    var reports: seq<Report>
    var filteredReports: seq<Report>
    var loading: bool
    var searchTerm: string
    var statusFilter: string
    var priorityFilter: string

    /** The filter effect has run for the current reports and criteria. */
    ghost predicate Valid()
      reads this
    {
      filteredReports == Visible(reports, searchTerm, statusFilter, priorityFilter)
    }

    /** The counters of the screen, over `reports` and not over the filtered list. */
    function Stats(): AssignmentStats
      reads this
    {
      StatsOf(reports)
    }

    constructor(uid: string)
      ensures Valid() && this.uid == uid && reports == [] && filteredReports == [] && loading
      ensures searchTerm == "" && statusFilter == ALL && priorityFilter == ALL
    {
      this.uid := uid;
      reports := [];
      filteredReports := [];
      loading := true;
      searchTerm := "";
      statusFilter := ALL;
      priorityFilter := ALL;
    }

    /** The effect on `[reports, searchTerm, statusFilter, priorityFilter]`. */
    method FilterEffect()
      modifies this
      ensures Valid()
      ensures reports == old(reports) && loading == old(loading)
      ensures searchTerm == old(searchTerm) && statusFilter == old(statusFilter) && priorityFilter == old(priorityFilter)
    {
      var filtered := reports;
      if searchTerm != "" {
        filtered := Seqs.Filter(filtered, Matching(searchTerm));
      }
      if statusFilter != ALL {
        filtered := Seqs.Filter(filtered, HasStatus(statusFilter));
      }
      if priorityFilter != ALL {
        filtered := Seqs.Filter(filtered, HasPriority(priorityFilter));
      }
      filteredReports := filtered;
    }

    /**
     * `fetchAssignedReports` (on mount) and `handleRefresh`: keep the reports
     * assigned to this user, then the filter effect runs on them.
     */
    method Fetch(db: Database, now: Time)
      modifies this
      ensures Valid()
      ensures reports == MyReports(ReportService.ToReports(ReportService.AllReportDocs(db.reports), now), uid)
      ensures !loading
      ensures searchTerm == old(searchTerm) && statusFilter == old(statusFilter) && priorityFilter == old(priorityFilter)
    {
      var allReports := ReportService.GetAllReports(db, now);
      var assignedReports := Seqs.Filter(allReports, AssignedTo(uid));
      SetLoaded(assignedReports);
      FilterEffect();
    }

    /** The state updates at the end of a fetch: the assigned reports, shown unfiltered, and loading off. */
    method SetLoaded(assignedReports: seq<Report>)
      modifies this
      ensures reports == assignedReports && filteredReports == assignedReports && !loading
      ensures searchTerm == old(searchTerm) && statusFilter == old(statusFilter) && priorityFilter == old(priorityFilter)
    {
      reports := assignedReports;
      filteredReports := assignedReports;
      loading := false;
    }

    /** Typing a term or choosing a status or priority; the counters do not move. */
    method SetCriteria(term: string, status: string, priority: string)
      modifies this
      ensures Valid() && searchTerm == term && statusFilter == status && priorityFilter == priority
      ensures reports == old(reports) && Stats() == old(Stats())
    {
      searchTerm, statusFilter, priorityFilter := term, status, priority;
      FilterEffect();
    }
  }
}
