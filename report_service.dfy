/**
 * The report store's operations: reading reports, the status change with its
 * audit entry, comments, the status history, and assigning and unassigning
 * an employee. Each operation is a sequence of separate writes; when a write
 * fails, the writes before it stay and the ones after it are not made.
 */
module ReportService {
  import opened Wrappers
  import Text
  import Seqs
  import opened Js
  import opened ReportTypes
  import opened UserTypes
  import opened Firestore
  import opened EmployeeService

  /** `Comment` */
  datatype Comment = Comment(
    id: string, reportId: string, userId: string, userEmail: string, userType: string,
    content: string, createdAt: Time, updatedAt: Time)

  /** `StatusHistory` */
  datatype StatusHistory = StatusHistory(
    id: string, reportId: string, oldStatus: string, newStatus: string, changedBy: string,
    changedByUser: string, notes: string, timestamp: Time, automatic: bool)

  /** The signed-in staff member an operation acts for: `{ uid, email, userType }`. */
  datatype Actor = Actor(uid: string, email: string, userType: string)

  /** What `addComment` is given. */
  datatype CommentInput = CommentInput(userId: string, userEmail: string, userType: string, content: string)

  // ---------------------------------------------------------------------------
  // firestoreToReport

  const UNTITLED := "Untitled Report"
  const FALLBACK_ISSUE_TYPE := "OTHER"
  const DEFAULT_LOCATION := Location(Numeric(0.0), Numeric(0.0), None, None)

  /**
   * `firestoreToReport`: the stored value of each field, or its default when
   * the field is missing or falsy. `now` is the client clock, used for a
   * missing `createdAt` or `updatedAt`.
   */
  function FirestoreToReport(id: string, d: ReportDoc, now: Time): (r: Report)
    ensures r.id == id
    ensures r.status == (if Truthy(d.status) then d.status.value else SUBMITTED)
    ensures r.priority == (if Truthy(d.priority) then d.priority.value else MEDIUM)
    ensures r.title == (if Truthy(d.title) then d.title.value else UNTITLED)
    ensures r.issueType == (if Truthy(d.issueType) then d.issueType.value else FALLBACK_ISSUE_TYPE)
    ensures r.imageURLs == (if d.imageURLs.Some? then d.imageURLs.value else [])
    ensures r.location == (if d.location.Some? then d.location.value else DEFAULT_LOCATION)
    ensures r.assignedTo == d.assignedTo && r.assignedAt == d.assignedAt && r.resolvedAt == d.resolvedAt
    ensures r.createdAt == d.createdAt.GetOr(now) && r.updatedAt == d.updatedAt.GetOr(now)
    ensures r.userId == OrString(d.userId, "") && r.municipalityId == OrString(d.municipalityId, "")
    ensures r.description == OrString(d.description, "") && r.address == OrString(d.address, "")
    ensures r.aiConfidenceScore == OrZero(d.aiConfidenceScore) && r.aiClassificationCompleted == OrFalse(d.aiClassificationCompleted)
    ensures r.mlProcessingStatus == OrString(d.mlProcessingStatus, "pending") && r.mlConfidenceScore == OrZero(d.mlConfidenceScore)
    ensures r.mlSuggestions == OrEmpty(d.mlSuggestions) && r.imageClassifications == OrEmpty(d.imageClassifications)
    ensures r.userId != "" ==> Some(r.userId) == d.userId
    ensures r.mlProcessingStatus != "" && r.status != "" && r.priority != "" && r.title != "" && r.issueType != ""
  {
    Report(
      id,
      OrString(d.userId, ""),
      OrString(d.municipalityId, ""),
      OrString(d.title, UNTITLED),
      OrString(d.description, ""),
      OrString(d.issueType, FALLBACK_ISSUE_TYPE),
      OrEmpty(d.imageURLs),
      if d.location.Some? then d.location.value else DEFAULT_LOCATION,
      OrString(d.address, ""),
      OrZero(d.aiConfidenceScore),
      OrFalse(d.aiClassificationCompleted),
      OrString(d.status, SUBMITTED),
      OrString(d.priority, MEDIUM),
      d.assignedTo,
      d.assignedAt,
      OrString(d.mlProcessingStatus, "pending"),
      OrZero(d.mlConfidenceScore),
      OrEmpty(d.mlSuggestions),
      OrEmpty(d.imageClassifications),
      d.createdAt.GetOr(now),
      d.updatedAt.GetOr(now),
      d.resolvedAt)
  }

  /**
   * A report whose document lacks an issue type comes back as "OTHER",
   * which the issue-type guard rejects; one without a status comes back as
   * submitted and one without a priority as medium.
   */
  lemma MissingFieldsDefaults(id: string, now: Time)
    ensures !IsIssueType(FirestoreToReport(id, EmptyReportDoc, now).issueType)
    ensures FirestoreToReport(id, EmptyReportDoc, now).status == SUBMITTED
    ensures FirestoreToReport(id, EmptyReportDoc, now).priority == MEDIUM
    ensures FirestoreToReport(id, EmptyReportDoc, now).title == UNTITLED
    ensures IsReportStatus(FirestoreToReport(id, EmptyReportDoc, now).status)
  {
    EnumerationFacts();
  }

  /**
   * A report created from a DTO whose text fields are filled in reads back
   * with those fields, the initial status and priority and no assignment.
   */
  lemma DefaultReportReadsBack(id: string, dto: CreateReportDTO, now: Time)
    requires dto.userId != "" && dto.title != "" && dto.issueType != ""
    ensures FirestoreToReport(id, CreateDefaultReport(dto), now).userId == dto.userId
    ensures FirestoreToReport(id, CreateDefaultReport(dto), now).title == dto.title
    ensures FirestoreToReport(id, CreateDefaultReport(dto), now).issueType == dto.issueType
    ensures FirestoreToReport(id, CreateDefaultReport(dto), now).location == dto.location
    ensures FirestoreToReport(id, CreateDefaultReport(dto), now).imageURLs == dto.imageURLs
    ensures FirestoreToReport(id, CreateDefaultReport(dto), now).status == SUBMITTED
    ensures FirestoreToReport(id, CreateDefaultReport(dto), now).priority == MEDIUM
    ensures FirestoreToReport(id, CreateDefaultReport(dto), now).assignedTo.None?
  {
  }

  function ReportOf(now: Time): Snapshot<ReportDoc> -> Report {
    (s: Snapshot<ReportDoc>) => FirestoreToReport(s.id, s.data, now)
  }

  /** The documents `getAllReports` reads: newest first. */
  function AllReportDocs(reports: map<string, ReportDoc>): seq<Snapshot<ReportDoc>> {
    ReportsNewestFirst(Docs(reports))
  }

  function ToReports(snaps: seq<Snapshot<ReportDoc>>, now: Time): seq<Report> {
    Seqs.Map(snaps, ReportOf(now))
  }

  /** `getAllReports` */
  method GetAllReports(db: Database, now: Time) returns (reports: seq<Report>)
    ensures reports == ToReports(AllReportDocs(db.reports), now)
  {
    reports := ReadReports(AllReportDocs(db.reports), now);
  }

  /** The query's documents turned into reports, one by one. */
  method ReadReports(snaps: seq<Snapshot<ReportDoc>>, now: Time) returns (reports: seq<Report>)
    ensures reports == ToReports(snaps, now)
  {
    reports := [];
    var i := 0;
    while i < |snaps|
      invariant 0 <= i <= |snaps|
      invariant reports == ToReports(snaps[..i], now)
    {
      var f := ReportOf(now);
      reports := reports + [f(snaps[i])];
      Seqs.MapSnoc(snaps, i, f);
      i := i + 1;
    }
    assert snaps[..|snaps|] == snaps;
  }

  /** `getAllReports` returns the reports newest first. */
  lemma AllReportsNewestFirst(reports: map<string, ReportDoc>, now: Time)
    ensures forall i, j :: 0 <= i < j < |ToReports(AllReportDocs(reports), now)| ==>
      ToReports(AllReportDocs(reports), now)[i].createdAt >= ToReports(AllReportDocs(reports), now)[j].createdAt
  {
    var snaps := AllReportDocs(reports);
    var rs := ToReports(snaps, now);
    forall i, j | 0 <= i < j < |rs| ensures rs[i].createdAt >= rs[j].createdAt {
      assert rs[i] == ReportOf(now)(snaps[i]) && rs[j] == ReportOf(now)(snaps[j]);
      assert NewerReport(snaps[i], snaps[j]);
      DatedReport(reports, snaps[i]);
      DatedReport(reports, snaps[j]);
      NewerDated(snaps[i], snaps[j], now);
    }
  }

  /** Between two dated documents, the query's order is the order of the reports' `createdAt`. */
  lemma NewerDated(a: Snapshot<ReportDoc>, b: Snapshot<ReportDoc>, now: Time)
    requires NewerReport(a, b) && a.data.createdAt.Some? && b.data.createdAt.Some?
    ensures ReportOf(now)(a).createdAt >= ReportOf(now)(b).createdAt
  {
  }

  /** Every document the `getAllReports` query returns has a `createdAt`. */
  lemma DatedReport(reports: map<string, ReportDoc>, s: Snapshot<ReportDoc>)
    requires s in AllReportDocs(reports)
    ensures s.data.createdAt.Some?
  {
    assert s in multiset(AllReportDocs(reports));
    assert s in Seqs.Filter(Docs(reports), HasCreatedAt);
  }

  /** `getAllReports` returns every report that has a `createdAt`. */
  lemma AllReportsComplete(reports: map<string, ReportDoc>, id: string, now: Time)
    requires id in reports && reports[id].createdAt.Some?
    ensures FirestoreToReport(id, reports[id], now) in ToReports(AllReportDocs(reports), now)
  {
    var snaps := AllReportDocs(reports);
    DatedReportListed(reports, id);
    var i :| 0 <= i < |snaps| && snaps[i] == Snapshot(id, reports[id]);
    ListedAt(snaps, i, now);
  }

  lemma ListedAt(snaps: seq<Snapshot<ReportDoc>>, i: nat, now: Time)
    requires i < |snaps|
    ensures FirestoreToReport(snaps[i].id, snaps[i].data, now) in ToReports(snaps, now)
  {
    assert ToReports(snaps, now)[i] == ReportOf(now)(snaps[i]);
  }

  lemma DatedReportListed(reports: map<string, ReportDoc>, id: string)
    requires id in reports && reports[id].createdAt.Some?
    ensures Snapshot(id, reports[id]) in AllReportDocs(reports)
  {
    DocsComplete(reports, id);
    NewestFirstMembers(Docs(reports), Snapshot(id, reports[id]));
  }

  /** `getReportById` */
  function GetReportById(reports: map<string, ReportDoc>, id: string, now: Time): (r: Option<Report>)
    ensures r.Some? <==> id in reports
    ensures r.Some? ==> r.value.id == id && r.value == FirestoreToReport(id, reports[id], now)
  {
    if id in reports then Some(FirestoreToReport(id, reports[id], now)) else None
  }

  // ---------------------------------------------------------------------------
  // Document updates the operations make

  /** The fields `updateReportStatus` writes. */
  function WithStatus(d: ReportDoc, status: string, t: Time): ReportDoc {
    d.(status := Some(status), updatedAt := Some(t))
  }

  /** The fields `assignReport` writes: the employee's full name, their id and the time. */
  function Assigned(d: ReportDoc, name: string, employeeId: string, t: Time): ReportDoc {
    d.(assignedTo := Some(name), assignedToId := Some(employeeId), assignedAt := Some(t), updatedAt := Some(t))
  }

  /** The fields `unassignReport` writes: the three assignment fields become null. */
  function Unassigned(d: ReportDoc, t: Time): ReportDoc {
    d.(assignedTo := None, assignedToId := None, assignedAt := None, updatedAt := Some(t))
  }

  /** The field `addComment` writes on the report. */
  function Touched(d: ReportDoc, t: Time): ReportDoc {
    d.(updatedAt := Some(t))
  }

  /** Two documents that agree on everything but assignment and `updatedAt`. */
  predicate SameContent(a: ReportDoc, b: ReportDoc) {
    a.(assignedTo := None, assignedToId := None, assignedAt := None, updatedAt := None) ==
    b.(assignedTo := None, assignedToId := None, assignedAt := None, updatedAt := None)
  }

  /**
   * Assignment changes who the report is assigned to and nothing of its
   * content: status, priority, title and the rest stay as they were, and the
   * report reads back assigned to the employee's full name.
   */
  lemma AssignmentKeepsContent(d: ReportDoc, name: string, employeeId: string, t1: Time, t2: Time, now: Time)
    ensures SameContent(d, Touched(Assigned(d, name, employeeId, t1), t2))
    ensures Touched(Assigned(d, name, employeeId, t1), t2).status == d.status
    ensures Touched(Assigned(d, name, employeeId, t1), t2).priority == d.priority
    ensures FirestoreToReport("", Touched(Assigned(d, name, employeeId, t1), t2), now).assignedTo == Some(name)
  {
  }

  /** Unassigning undoes an assignment: the result does not depend on whether the report was assigned. */
  lemma UnassignUndoesAssign(d: ReportDoc, name: string, employeeId: string, t1: Time, t2: Time)
    ensures Unassigned(Assigned(d, name, employeeId, t1), t2) == Unassigned(d, t2)
    ensures SameContent(d, Unassigned(d, t2))
  {
  }

  // ---------------------------------------------------------------------------
  // Comments and status history

  function CommentOf(c: CommentDoc): Comment {
    Comment(c.id, c.reportId, c.userId, c.userEmail, c.userType, c.content, c.createdAt, c.updatedAt)
  }

  function HistoryOf(h: HistoryDoc): StatusHistory {
    StatusHistory(h.id, h.reportId, h.oldStatus, h.newStatus, h.changedBy, h.changedByUser, h.notes,
                  h.timestamp, OrFalse(h.automatic))
  }

  /**
   * `addComment`: the comment is added to the report's `comments`, then the
   * report's `updatedAt` is bumped. The sub-collection write succeeds even
   * when the report does not exist; the update then fails, so the call
   * raises but the comment stays.
   */
  method AddComment(db: Database, reportId: string, input: CommentInput, now: Time)
    returns (r: Result<Comment, Error>)
    requires db.Valid()
    modifies db
    ensures db.Valid()
    ensures db.comments == old(db.comments)[reportId := old(db.Comments(reportId)) +
      [CommentDoc(AutoId(old(db.clock) + 1), reportId, input.userId, input.userEmail, input.userType,
                  input.content, old(db.clock) + 1, old(db.clock) + 1)]]
    ensures reportId in old(db.reports) ==>
      db.clock == old(db.clock) + 2 &&
      db.reports == old(db.reports)[reportId := Touched(old(db.reports[reportId]), old(db.clock) + 2)] &&
      r == Success(Comment(AutoId(old(db.clock) + 1), reportId, input.userId, input.userEmail, input.userType,
                           input.content, now, now))
    ensures reportId !in old(db.reports) ==>
      db.clock == old(db.clock) + 1 && db.reports == old(db.reports) && r == Failure(NoDocumentToUpdate(reportId))
    ensures db.users == old(db.users) && db.history == old(db.history)
  {
    var c := db.AppendComment(reportId, input.userId, input.userEmail, input.userType, input.content);
    if reportId !in db.reports {
      return Failure(NoDocumentToUpdate(reportId));
    }
    var t := db.ServerTimestamp();
    db.PutReport(reportId, Touched(db.reports[reportId], t));
    r := Success(Comment(c.id, reportId, input.userId, input.userEmail, input.userType, input.content, now, now));
  }

  /** `addStatusHistory`: one entry appended to the report's `statusHistory`. */
  method AddStatusHistory(db: Database, reportId: string, oldStatus: string, newStatus: string,
                          changedBy: string, changedByUser: string, notes: string, automatic: bool)
    requires db.Valid()
    modifies db
    ensures db.Valid()
    ensures db.clock == old(db.clock) + 1
    ensures db.history == old(db.history)[reportId := old(db.History(reportId)) +
      [HistoryDoc(AutoId(db.clock), reportId, oldStatus, newStatus, changedBy, changedByUser, notes,
                  db.clock, Some(automatic))]]
    ensures db.users == old(db.users) && db.reports == old(db.reports) && db.comments == old(db.comments)
  {
    var _ := db.AppendHistory(reportId, oldStatus, newStatus, changedBy, changedByUser, notes, automatic);
  }

  /** `getComments`: the query orders by `createdAt`, which is the order the comments were written in. */
  method GetComments(db: Database, reportId: string) returns (comments: seq<Comment>)
    requires db.Valid()
    ensures comments == Seqs.Map(db.Comments(reportId), CommentOf)
  {
    var log := db.Comments(reportId);
    CommentQueryInInsertionOrder(log, db.clock);
    comments := ReadComments(Seqs.SortBy(log, CommentBefore));
  }

  /** `getStatusHistory`: entries in the order they were written; a missing `automatic` reads as false. */
  method GetStatusHistory(db: Database, reportId: string) returns (entries: seq<StatusHistory>)
    requires db.Valid()
    ensures entries == Seqs.Map(db.History(reportId), HistoryOf)
  {
    var log := db.History(reportId);
    HistoryQueryInInsertionOrder(log, db.clock);
    entries := ReadHistory(Seqs.SortBy(log, HistoryBefore));
  }

  /** The query's documents turned into comments, one by one. */
  method ReadComments(snaps: seq<CommentDoc>) returns (comments: seq<Comment>)
    ensures comments == Seqs.Map(snaps, CommentOf)
  {
    comments := [];
    var i := 0;
    while i < |snaps|
      invariant 0 <= i <= |snaps|
      invariant comments == Seqs.Map(snaps[..i], CommentOf)
    {
      comments := comments + [CommentOf(snaps[i])];
      Seqs.MapSnoc(snaps, i, CommentOf);
      i := i + 1;
    }
    assert snaps[..|snaps|] == snaps;
  }

  /** The query's documents turned into history entries, one by one. */
  method ReadHistory(snaps: seq<HistoryDoc>) returns (entries: seq<StatusHistory>)
    ensures entries == Seqs.Map(snaps, HistoryOf)
  {
    entries := [];
    var i := 0;
    while i < |snaps|
      invariant 0 <= i <= |snaps|
      invariant entries == Seqs.Map(snaps[..i], HistoryOf)
    {
      entries := entries + [HistoryOf(snaps[i])];
      Seqs.MapSnoc(snaps, i, HistoryOf);
      i := i + 1;
    }
    assert snaps[..|snaps|] == snaps;
  }

  // ---------------------------------------------------------------------------
  // updateReportStatus

  /**
   * `updateReportStatus`: raises "Report not found" and writes nothing for a
   * missing report; otherwise sets the status, then appends one history
   * entry from the status as read (defaulted) to the new one.
   */
  method UpdateReportStatus(db: Database, id: string, newStatus: string, user: Actor, notes: string, now: Time)
    returns (r: Outcome<Error>)
    requires db.Valid()
    modifies db
    ensures db.Valid()
    ensures id !in old(db.reports) ==>
      r == Fail(ReportNotFound) && db.clock == old(db.clock) && db.reports == old(db.reports) &&
      db.comments == old(db.comments) && db.history == old(db.history)
    ensures id in old(db.reports) ==>
      r == Pass && db.clock == old(db.clock) + 2 &&
      db.reports == old(db.reports)[id := WithStatus(old(db.reports[id]), newStatus, old(db.clock) + 1)] &&
      db.history == old(db.history)[id := old(db.History(id)) +
        [HistoryDoc(AutoId(db.clock), id, FirestoreToReport(id, old(db.reports[id]), now).status, newStatus,
                    user.uid, user.email, notes, db.clock, Some(false))]] &&
      db.comments == old(db.comments)
    ensures db.users == old(db.users)
  {
    var report := GetReportById(db.reports, id, now);
    if report.None? {
      return Fail(ReportNotFound);
    }
    var t := db.ServerTimestamp();
    db.PutReport(id, WithStatus(db.reports[id], newStatus, t));
    AddStatusHistory(db, id, report.value.status, newStatus, user.uid, user.email, notes, false);
    r := Pass;
  }

  // ---------------------------------------------------------------------------
  // assignReport / unassignReport

  /** The history note: "Assigned to NAME", with ": NOTES" only when there are notes. */
  function AssignmentNote(name: string, notes: string): string {
    "Assigned to " + name + (if notes != "" then ": " + notes else "")
  }

  const CLIPBOARD := "\U{1F4CB}"

  /** The comment: "📋 Report assigned to NAME", then the notes under a bold heading when there are any. */
  function AssignmentComment(name: string, notes: string): string {
    CLIPBOARD + " Report assigned to " + name + (if notes != "" then "\n\n**Notes:** " + notes else "")
  }

  const UNASSIGN_NOTE := "Report unassigned"
  const UNASSIGN_COMMENT := CLIPBOARD + " Report unassigned from previous employee"

  /** The lowercase status the assignment history writes. */
  const ASSIGNED_ENTRY := "assigned"
  const UNASSIGNED_ENTRY := "unassigned"

  /** The employee `assignReport` looks up: the first active employee with that id. */
  function AssigneeOf(users: map<string, UserDoc>, employeeId: string, now: Time): Option<Employee> {
    FindById(ToEmployees(ActiveEmployeeDocs(users), now), employeeId)
  }

  /**
   * The three writes of an assignment to an existing report; `note` and
   * `comment` are the history note and the comment text built from the
   * employee's name and the notes.
   */
  method WriteAssignment(db: Database, reportId: string, employeeId: string, name: string, actor: Actor,
                         note: string, comment: string, now: Time)
    requires db.Valid() && reportId in db.reports
    modifies db
    ensures db.Valid()
    ensures db.users == old(db.users) && db.clock == old(db.clock) + 4
    ensures db.reports == old(db.reports)[reportId := Touched(Assigned(old(db.reports[reportId]), name, employeeId, old(db.clock) + 1), old(db.clock) + 4)]
    ensures db.history == old(db.history)[reportId := old(db.History(reportId)) +
      [HistoryDoc(AutoId(old(db.clock) + 2), reportId, "", ASSIGNED_ENTRY, actor.uid, actor.email, note, old(db.clock) + 2, Some(false))]]
    ensures db.comments == old(db.comments)[reportId := old(db.Comments(reportId)) +
      [CommentDoc(AutoId(old(db.clock) + 3), reportId, actor.uid, actor.email, actor.userType, comment, old(db.clock) + 3, old(db.clock) + 3)]]
  {
    ghost var comments, log, reports, c := db.comments, db.Comments(reportId), db.reports, db.clock;
    var t := db.ServerTimestamp();
    ghost var written := Assigned(reports[reportId], name, employeeId, c + 1);
    db.PutReport(reportId, Assigned(db.reports[reportId], name, employeeId, t));
    assert db.reports == reports[reportId := written];
    AddStatusHistory(db, reportId, "", ASSIGNED_ENTRY, actor.uid, actor.email, note, false);
    assert db.comments == comments && db.Comments(reportId) == log;
    var added := AddComment(db, reportId, CommentInput(actor.uid, actor.email, actor.userType, comment), now);
    assert db.reports == reports[reportId := written][reportId := Touched(written, c + 4)];
    UpdateTwice(reports, reportId, written, Touched(written, c + 4));
  }

  /**
   * `assignReport`: raises "Employee not found" before any write when the id
   * is not an active employee. Otherwise it updates the report (which fails,
   * writing nothing, for a missing report) with the employee's full name and
   * id, appends the history entry '' to 'assigned', then adds the comment,
   * which bumps `updatedAt` once more. `currentWorkload` is not touched.
   */
  method AssignReport(db: Database, reportId: string, employeeId: string, actor: Actor, notes: string, now: Time)
    returns (r: Outcome<Error>)
    requires db.Valid()
    modifies db
    ensures db.Valid()
    ensures db.users == old(db.users)
    ensures AssigneeOf(old(db.users), employeeId, now).None? ==>
      r == Fail(EmployeeNotFound) && db.clock == old(db.clock) && db.reports == old(db.reports) &&
      db.comments == old(db.comments) && db.history == old(db.history)
    ensures AssigneeOf(old(db.users), employeeId, now).Some? && reportId !in old(db.reports) ==>
      r == Fail(NoDocumentToUpdate(reportId)) && db.clock == old(db.clock) && db.reports == old(db.reports) &&
      db.comments == old(db.comments) && db.history == old(db.history)
    ensures AssigneeOf(old(db.users), employeeId, now).Some? && reportId in old(db.reports) ==>
      var name := AssigneeOf(old(db.users), employeeId, now).value.fullName;
      var c := old(db.clock);
      r == Pass && db.clock == c + 4 &&
      db.reports == old(db.reports)[reportId := Touched(Assigned(old(db.reports[reportId]), name, employeeId, c + 1), c + 4)] &&
      db.history == old(db.history)[reportId := old(db.History(reportId)) +
        [HistoryDoc(AutoId(c + 2), reportId, "", ASSIGNED_ENTRY, actor.uid, actor.email, AssignmentNote(name, notes), c + 2, Some(false))]] &&
      db.comments == old(db.comments)[reportId := old(db.Comments(reportId)) +
        [CommentDoc(AutoId(c + 3), reportId, actor.uid, actor.email, actor.userType, AssignmentComment(name, notes), c + 3, c + 3)]]
  {
    var employee := GetEmployeeById(db, employeeId, now);
    if employee.None? {
      return Fail(EmployeeNotFound);
    }
    if reportId !in db.reports {
      return Fail(NoDocumentToUpdate(reportId));
    }
    var name := employee.value.fullName;
    WriteAssignment(db, reportId, employeeId, name, actor, AssignmentNote(name, notes), AssignmentComment(name, notes), now);
    r := Pass;
  }

  /**
   * `unassignReport`: no existence check of its own; the update fails,
   * writing nothing, for a missing report. Otherwise the assignment fields
   * become null, the history entry 'assigned' to 'unassigned' and one fixed
   * comment are added.
   */
  method UnassignReport(db: Database, reportId: string, actor: Actor, now: Time)
    returns (r: Outcome<Error>)
    requires db.Valid()
    modifies db
    ensures db.Valid()
    ensures db.users == old(db.users)
    ensures reportId !in old(db.reports) ==>
      r == Fail(NoDocumentToUpdate(reportId)) && db.clock == old(db.clock) && db.reports == old(db.reports) &&
      db.comments == old(db.comments) && db.history == old(db.history)
    ensures reportId in old(db.reports) ==>
      var c := old(db.clock);
      r == Pass && db.clock == c + 4 &&
      db.reports == old(db.reports)[reportId := Touched(Unassigned(old(db.reports[reportId]), c + 1), c + 4)] &&
      db.history == old(db.history)[reportId := old(db.History(reportId)) +
        [HistoryDoc(AutoId(c + 2), reportId, ASSIGNED_ENTRY, UNASSIGNED_ENTRY, actor.uid, actor.email, UNASSIGN_NOTE, c + 2, Some(false))]] &&
      db.comments == old(db.comments)[reportId := old(db.Comments(reportId)) +
        [CommentDoc(AutoId(c + 3), reportId, actor.uid, actor.email, actor.userType, UNASSIGN_COMMENT, c + 3, c + 3)]]
  {
    if reportId !in db.reports {
      return Fail(NoDocumentToUpdate(reportId));
    }
    WriteUnassignment(db, reportId, actor, now);
    r := Pass;
  }

  /** The three writes of an unassignment of an existing report. */
  method WriteUnassignment(db: Database, reportId: string, actor: Actor, now: Time)
    requires db.Valid() && reportId in db.reports
    modifies db
    ensures db.Valid()
    ensures db.users == old(db.users) && db.clock == old(db.clock) + 4
    ensures db.reports == old(db.reports)[reportId := Touched(Unassigned(old(db.reports[reportId]), old(db.clock) + 1), old(db.clock) + 4)]
    ensures db.history == old(db.history)[reportId := old(db.History(reportId)) +
      [HistoryDoc(AutoId(old(db.clock) + 2), reportId, ASSIGNED_ENTRY, UNASSIGNED_ENTRY, actor.uid, actor.email, UNASSIGN_NOTE, old(db.clock) + 2, Some(false))]]
    ensures db.comments == old(db.comments)[reportId := old(db.Comments(reportId)) +
      [CommentDoc(AutoId(old(db.clock) + 3), reportId, actor.uid, actor.email, actor.userType, UNASSIGN_COMMENT, old(db.clock) + 3, old(db.clock) + 3)]]
  {
    ghost var comments, log, reports, c := db.comments, db.Comments(reportId), db.reports, db.clock;
    var t := db.ServerTimestamp();
    ghost var written := Unassigned(reports[reportId], c + 1);
    db.PutReport(reportId, Unassigned(db.reports[reportId], t));
    assert db.reports == reports[reportId := written];
    AddStatusHistory(db, reportId, ASSIGNED_ENTRY, UNASSIGNED_ENTRY, actor.uid, actor.email, UNASSIGN_NOTE, false);
    assert db.comments == comments && db.Comments(reportId) == log;
    var added := AddComment(db, reportId, CommentInput(actor.uid, actor.email, actor.userType, UNASSIGN_COMMENT), now);
    assert db.reports == reports[reportId := written][reportId := Touched(written, c + 4)];
    UpdateTwice(reports, reportId, written, Touched(written, c + 4));
  }

  /**
   * The assignment history's "assigned" is not the status enumeration's
   * "ASSIGNED", and the two entries the history writes are not statuses.
   */
  lemma AssignmentEntriesAreNotStatuses()
    ensures !IsReportStatus(ASSIGNED_ENTRY) && !IsReportStatus(UNASSIGNED_ENTRY)
  {
    EnumerationFacts();
  }
}
