/**
 * The service-reports screen: the loaded reports, the summary counters, the
 * admin-only row actions and the local delete.
 */
module ReportsClient {
  import Seqs
  import opened ReportTypes
  import opened UserTypes
  import opened Firestore
  import ReportService
  import AssignmentsClient

  /** `r.id !== id` */
  function OtherThan(id: string): Report -> bool {
    (r: Report) => r.id != id
  }

  /** `prev.filter(r => r.id !== report.id)`: every report with that id goes, the others keep their order. */
  function RemoveId(reports: seq<Report>, id: string): (r: seq<Report>)
    ensures forall x :: x in r <==> x in reports && x.id != id
    ensures Seqs.IsSubsequence(r, reports)
  {
    Seqs.FilterIsSubsequence(reports, OtherThan(id));
    Seqs.Filter(reports, OtherThan(id))
  }

  /** Removing an id no report has leaves the list as it is. */
  lemma RemoveAbsentId(reports: seq<Report>, id: string)
    requires forall i :: 0 <= i < |reports| ==> reports[i].id != id
    ensures RemoveId(reports, id) == reports
  {
    Seqs.FilterAll(reports, OtherThan(id));
  }

  /** Removing an id twice is removing it once. */
  lemma RemoveIdIdempotent(reports: seq<Report>, id: string)
    ensures RemoveId(RemoveId(reports, id), id) == RemoveId(reports, id)
  {
    var once := RemoveId(reports, id);
    forall i | 0 <= i < |once| ensures once[i].id != id {
      assert once[i] in once;
    }
    RemoveAbsentId(once, id);
  }

  // ---------------------------------------------------------------------------
  // The summary

  datatype Summary = Summary(total: nat, inProgress: nat, critical: nat, resolved: nat)

  function StatusIs(s: string): Report -> bool {
    (r: Report) => r.status == s
  }

  function PriorityIs(p: string): Report -> bool {
    (r: Report) => r.priority == p
  }

  /** The four tiles: only 'in_progress' is in progress, only 'resolved' is resolved. */
  function SummaryOf(reports: seq<Report>): (s: Summary)
    ensures s.total == |reports|
    ensures s.inProgress <= s.total && s.critical <= s.total && s.resolved <= s.total
    ensures s.inProgress == Seqs.Count(reports, StatusIs(IN_PROGRESS))
    ensures s.critical == Seqs.Count(reports, PriorityIs(CRITICAL))
    ensures s.resolved == Seqs.Count(reports, StatusIs(RESOLVED))
  {
    Summary(|reports|, Seqs.Count(reports, StatusIs(IN_PROGRESS)), Seqs.Count(reports, PriorityIs(CRITICAL)),
            Seqs.Count(reports, StatusIs(RESOLVED)))
  }

  /**
   * This screen counts fewer reports as in progress and as resolved than the
   * assignments screen does over the same list: it leaves out the uppercase
   * 'ASSIGNED' and 'closed'.
   */
  lemma NarrowerThanAssignments(reports: seq<Report>)
    ensures SummaryOf(reports).inProgress + Seqs.Count(reports, StatusIs(ASSIGNED))
         == AssignmentsClient.StatsOf(reports).inProgress
    ensures SummaryOf(reports).resolved + Seqs.Count(reports, StatusIs(CLOSED))
         == AssignmentsClient.StatsOf(reports).resolved
  {
    Seqs.CountDisjoint(reports, StatusIs(IN_PROGRESS), StatusIs(ASSIGNED), AssignmentsClient.InProgressReport);
    Seqs.CountDisjoint(reports, StatusIs(RESOLVED), StatusIs(CLOSED), AssignmentsClient.ResolvedReport);
  }

  /** Edit and delete are offered on a row only to an administrator. */
  predicate OffersRowActions(userType: string) {
    userType == ADMIN
  }

  class Screen {
    const userType: string
    var reports: seq<Report>
    var loading: bool

    constructor(userType: string)
      ensures this.userType == userType && reports == [] && loading
    {
      this.userType := userType;
      reports := [];
      loading := true;
    }

    /** `fetchReports`, on mount. */
    method Fetch(db: Database, now: Time)
      modifies this
      ensures reports == ReportService.ToReports(ReportService.AllReportDocs(db.reports), now) && !loading
    {
      var reportsData := ReportService.GetAllReports(db, now);
      reports := reportsData;
      loading := false;
    }

    /**
     * `handleDeleteReport`, reachable only from an administrator's row: once
     * confirmed, the report is removed from the list on screen only; no
     * document is deleted.
     */
    method HandleDeleteReport(report: Report, confirmed: bool)
      requires OffersRowActions(userType)
      modifies this
      ensures reports == if confirmed then RemoveId(old(reports), report.id) else old(reports)
      ensures loading == old(loading)
    {
      if confirmed {
        reports := Seqs.Filter(reports, OtherThan(report.id));
      }
    }
  }
}
