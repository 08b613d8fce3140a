/**
 * The report vocabulary: status, priority and issue-type values, the shape
 * of a stored report and of a report as the screens see it, the creation
 * DTO, `validateReport`, the colour and label tables and
 * `createDefaultReport`.
 */
module ReportTypes {
  import opened Wrappers
  import opened Js
  import Text
  import Seqs

  /** Milliseconds since the epoch (a Firestore `Timestamp` or a `Date`). */
  type Time = int

  // ---------------------------------------------------------------------------
  // Enumerations

  const SUBMITTED := "submitted"
  const AI_PROCESSED := "ai_processed"
  const UNDER_REVIEW := "under_review"
  const IN_PROGRESS := "in_progress"
  const RESOLVED := "resolved"
  const CLOSED := "closed"
  const REJECTED := "rejected"
  const VERIFICATION_NEEDED := "verification_needed"
  const ASSIGNED := "ASSIGNED"

  const ReportStatuses: seq<string> :=
    [SUBMITTED, AI_PROCESSED, UNDER_REVIEW, IN_PROGRESS, RESOLVED, CLOSED, REJECTED,
     VERIFICATION_NEEDED, ASSIGNED]

  const CRITICAL := "critical"
  const HIGH := "high"
  const MEDIUM := "medium"
  const LOW := "low"

  const Priorities: seq<string> := [CRITICAL, HIGH, MEDIUM, LOW]

  const IssueTypes: seq<string> :=
    ["pothole", "water_leak", "garbage", "street_light", "traffic_signal", "drainage",
     "vegetation", "other"]

  /** `isReportStatus`: membership in the values of the status enumeration. */
  predicate IsReportStatus(s: string) { s in ReportStatuses }

  /** `isPriority` */
  predicate IsPriority(p: string) { p in Priorities }

  /** `isIssueType` */
  predicate IsIssueType(t: string) { t in IssueTypes }

  /**
   * The guards accept exactly nine statuses, four priorities and eight issue
   * types. The uppercase "ASSIGNED" is a status, the lowercase "assigned" the
   * assignment history writes is not, and the "OTHER" that converted reports
   * fall back to is not an issue type.
   */
  lemma EnumerationFacts()
    ensures |ReportStatuses| == 9 && Seqs.NoDuplicates(ReportStatuses)
    ensures |Priorities| == 4 && Seqs.NoDuplicates(Priorities)
    ensures |IssueTypes| == 8 && Seqs.NoDuplicates(IssueTypes)
    ensures IsReportStatus("ASSIGNED") && !IsReportStatus("assigned") && !IsReportStatus("unassigned")
    ensures IsIssueType("other") && !IsIssueType("OTHER")
  {
    assert "assigned" != ASSIGNED && "assigned"[0] != ASSIGNED[0];
    assert "unassigned"[0] != ASSIGNED[0] && "unassigned" != SUBMITTED;
    assert "OTHER"[0] != "other"[0];
  }

  // ---------------------------------------------------------------------------
  // Document shapes

  /** A coordinate: a JavaScript number, or any other value (a string, a missing field). */
  datatype Coordinate = Numeric(value: real) | NonNumeric

  datatype Location = Location(latitude: Coordinate, longitude: Coordinate,
                               geohash: Option<string>, address: Option<string>)

  datatype MLSuggestion = MLSuggestion(kind: string, field: string, reason: string)

  datatype ImageClassification = ImageClassification(imageURL: string, predictedType: string, modelVersion: string)

  /**
   * A report document as stored: every field may be missing. This is also the
   * `Partial<Report>` that `validateReport` and `createDefaultReport` work on.
   * `assignedToId`, `assignedDepartment`, `category`, `rating`, `feedback` and
   * `createdBy` are written and read by other parts of the system and are not
   * declared on `Report`.
   */
  datatype ReportDoc = ReportDoc(
    userId: Option<string>,
    municipalityId: Option<string>,
    title: Option<string>,
    description: Option<string>,
    issueType: Option<string>,
    imageURLs: Option<seq<string>>,
    location: Option<Location>,
    address: Option<string>,
    aiConfidenceScore: Option<real>,
    aiClassificationCompleted: Option<bool>,
    status: Option<string>,
    priority: Option<string>,
    assignedTo: Option<string>,
    assignedToId: Option<string>,
    assignedAt: Option<Time>,
    assignedDepartment: Option<string>,
    category: Option<string>,
    mlProcessingStatus: Option<string>,
    mlConfidenceScore: Option<real>,
    mlSuggestions: Option<seq<MLSuggestion>>,
    imageClassifications: Option<seq<ImageClassification>>,
    rating: Option<int>,
    feedback: Option<string>,
    createdBy: Option<string>,
    createdAt: Option<Time>,
    updatedAt: Option<Time>,
    resolvedAt: Option<Time>)

  /** A document with no fields at all. */
  const EmptyReportDoc := ReportDoc(None, None, None, None, None, None, None, None, None, None,
                                    None, None, None, None, None, None, None, None, None, None,
                                    None, None, None, None, None, None, None)

  /** `Report`: a report as the screens use it, every required field filled in. */
  datatype Report = Report(
    id: string,
    userId: string,
    municipalityId: string,
    title: string,
    description: string,
    issueType: string,
    imageURLs: seq<string>,
    location: Location,
    address: string,
    aiConfidenceScore: real,
    aiClassificationCompleted: bool,
    status: string,
    priority: string,
    assignedTo: Option<string>,
    assignedAt: Option<Time>,
    mlProcessingStatus: string,
    mlConfidenceScore: real,
    mlSuggestions: seq<MLSuggestion>,
    imageClassifications: seq<ImageClassification>,
    createdAt: Time,
    updatedAt: Time,
    resolvedAt: Option<Time>)

  /** `CreateReportDTO` */
  datatype CreateReportDTO = CreateReportDTO(
    userId: string, municipalityId: string, title: string, description: string,
    issueType: string, imageURLs: seq<string>, location: Location, address: string)

  // ---------------------------------------------------------------------------
  // validateReport

  /** The checks `validateReport` runs, in order. */
  datatype Check = UserIdCheck | MunicipalityIdCheck | TitleCheck | IssueTypeCheck
                 | LocationCheck | CoordinatesCheck

  const Checks: seq<Check> :=
    [UserIdCheck, MunicipalityIdCheck, TitleCheck, IssueTypeCheck, LocationCheck, CoordinatesCheck]

  function Message(c: Check): string {
    match c
    case UserIdCheck => "User ID is required"
    case MunicipalityIdCheck => "Municipality ID is required"
    case TitleCheck => "Title is required"
    case IssueTypeCheck => "Issue type is required"
    case LocationCheck => "Location is required"
    case CoordinatesCheck => "Valid location coordinates are required"
  }

  predicate HasCoordinates(l: Location) {
    l.latitude.Numeric? && l.longitude.Numeric?
  }

  /** Whether check `c` rejects `doc`: a falsy field, or a title that trims to nothing. */
  predicate Fails(doc: ReportDoc, c: Check) {
    match c
    case UserIdCheck => !Truthy(doc.userId)
    case MunicipalityIdCheck => !Truthy(doc.municipalityId)
    case TitleCheck => !Truthy(doc.title) || |Text.Trim(doc.title.value)| == 0
    case IssueTypeCheck => !Truthy(doc.issueType)
    case LocationCheck => doc.location.None?
    case CoordinatesCheck => doc.location.Some? && !HasCoordinates(doc.location.value)
  }

  function FailsOn(doc: ReportDoc): Check -> bool {
    c => Fails(doc, c)
  }

  /** A report every check accepts, stated without `trim`: the title has a character that is not white space. */
  predicate IsValidReport(doc: ReportDoc) {
    Truthy(doc.userId) && Truthy(doc.municipalityId) &&
    doc.title.Some? && !Text.IsBlank(doc.title.value) &&
    Truthy(doc.issueType) &&
    doc.location.Some? && HasCoordinates(doc.location.value)
  }

  function MessageIf(failed: bool, c: Check): seq<string> {
    if failed then [Message(c)] else []
  }

  /**
   * `validateReport`: the messages of the failed checks, in check order; no
   * message exactly when the report is valid.
   */
  function ValidateReport(doc: ReportDoc): (errors: seq<string>)
    ensures errors == Seqs.Map(Seqs.Filter(Checks, FailsOn(doc)), Message)
    ensures errors == [] <==> IsValidReport(doc)
  {
    ValidateReportIsFilter(doc);
    NoMessageIffValid(doc);
    MessageIf(Fails(doc, UserIdCheck), UserIdCheck) +
    (MessageIf(Fails(doc, MunicipalityIdCheck), MunicipalityIdCheck) +
    (MessageIf(Fails(doc, TitleCheck), TitleCheck) +
    (MessageIf(Fails(doc, IssueTypeCheck), IssueTypeCheck) +
    (MessageIf(Fails(doc, LocationCheck), LocationCheck) +
     MessageIf(Fails(doc, CoordinatesCheck), CoordinatesCheck)))))
  }

  /** No check fails exactly when the report is valid. */
  lemma NoMessageIffValid(doc: ReportDoc)
    ensures (MessageIf(Fails(doc, UserIdCheck), UserIdCheck) +
             (MessageIf(Fails(doc, MunicipalityIdCheck), MunicipalityIdCheck) +
             (MessageIf(Fails(doc, TitleCheck), TitleCheck) +
             (MessageIf(Fails(doc, IssueTypeCheck), IssueTypeCheck) +
             (MessageIf(Fails(doc, LocationCheck), LocationCheck) +
              MessageIf(Fails(doc, CoordinatesCheck), CoordinatesCheck))))) == []) <==> IsValidReport(doc)
  {
    TitleFailsIffBlank(doc);
  }

  /** The title check fails exactly on a missing title or one made only of white space. */
  lemma TitleFailsIffBlank(doc: ReportDoc)
    ensures Fails(doc, TitleCheck) <==> doc.title.None? || Text.IsBlank(doc.title.value)
  {
    if doc.title.Some? {
      Text.TrimEmptyIffBlank(doc.title.value);
    }
  }

  lemma ValidateReportIsFilter(doc: ReportDoc)
    ensures Seqs.Map(Seqs.Filter(Checks, FailsOn(doc)), Message) ==
      MessageIf(Fails(doc, UserIdCheck), UserIdCheck) +
      (MessageIf(Fails(doc, MunicipalityIdCheck), MunicipalityIdCheck) +
      (MessageIf(Fails(doc, TitleCheck), TitleCheck) +
      (MessageIf(Fails(doc, IssueTypeCheck), IssueTypeCheck) +
      (MessageIf(Fails(doc, LocationCheck), LocationCheck) +
       MessageIf(Fails(doc, CoordinatesCheck), CoordinatesCheck)))))
  {
    var p := FailsOn(doc);
    var r5 := [CoordinatesCheck];
    var r4 := [LocationCheck] + r5;
    var r3 := [IssueTypeCheck] + r4;
    var r2 := [TitleCheck] + r3;
    var r1 := [MunicipalityIdCheck] + r2;
    var r0 := [UserIdCheck] + r1;
    assert Checks == r0;
    var k0, k1, k2 := MessageIf(p(UserIdCheck), UserIdCheck), MessageIf(p(MunicipalityIdCheck), MunicipalityIdCheck),
                      MessageIf(p(TitleCheck), TitleCheck);
    var k3, k4, k5 := MessageIf(p(IssueTypeCheck), IssueTypeCheck), MessageIf(p(LocationCheck), LocationCheck),
                      MessageIf(p(CoordinatesCheck), CoordinatesCheck);
    FilterMapCons(CoordinatesCheck, [], p);
    assert [CoordinatesCheck] + [] == r5;
    FilterMapCons(LocationCheck, r5, p);
    FilterMapCons(IssueTypeCheck, r4, p);
    FilterMapCons(TitleCheck, r3, p);
    FilterMapCons(MunicipalityIdCheck, r2, p);
    FilterMapCons(UserIdCheck, r1, p);
    assert k5 + [] == k5;
  }

  lemma FilterMapCons(c: Check, cs: seq<Check>, p: Check -> bool)
    ensures Seqs.Map(Seqs.Filter([c] + cs, p), Message) ==
            MessageIf(p(c), c) + Seqs.Map(Seqs.Filter(cs, p), Message)
  {
    Seqs.FilterCons(c, cs, p);
    Seqs.MapAppend(if p(c) then [c] else [], Seqs.Filter(cs, p), Message);
  }

  /** A check's message is reported exactly when that check fails. */
  lemma MessageReportedIffFails(doc: ReportDoc, c: Check)
    ensures Message(c) in ValidateReport(doc) <==> Fails(doc, c)
  {
    if Fails(doc, c) {
      FailedCheckReported(doc, c);
    } else {
      PassedCheckNotReported(doc, c);
    }
  }

  lemma FailedCheckReported(doc: ReportDoc, c: Check)
    requires Fails(doc, c)
    ensures Message(c) in ValidateReport(doc)
  {
    assert c in Checks && FailsOn(doc)(c);
    Seqs.MapFilterMember(Checks, FailsOn(doc), Message, c);
  }

  lemma PassedCheckNotReported(doc: ReportDoc, c: Check)
    requires !Fails(doc, c)
    ensures Message(c) !in ValidateReport(doc)
  {
    var f := Seqs.Filter(Checks, FailsOn(doc));
    var e := ValidateReport(doc);
    if Message(c) in e {
      var i :| 0 <= i < |e| && e[i] == Message(c);
      assert f[i] in f;
      NotMessage(f[i], c);
    }
  }

  lemma NotMessage(a: Check, b: Check)
    requires a != b
    ensures Message(a) != Message(b)
  {
  }

  /**
   * Of the two location messages at most one is reported: a missing location
   * as missing, a present one with a non-numeric coordinate as lacking valid
   * coordinates.
   */
  lemma LocationMessages(doc: ReportDoc)
    ensures Message(LocationCheck) in ValidateReport(doc) <==> doc.location.None?
    ensures Message(CoordinatesCheck) in ValidateReport(doc) <==>
      doc.location.Some? && !HasCoordinates(doc.location.value)
  {
    assert Fails(doc, LocationCheck) <==> doc.location.None?;
    assert Fails(doc, CoordinatesCheck) <==> doc.location.Some? && !HasCoordinates(doc.location.value);
    MessageReportedIffFails(doc, LocationCheck);
    MessageReportedIffFails(doc, CoordinatesCheck);
  }

  /** A title of white space only is reported as missing. */
  lemma BlankTitleRejected(doc: ReportDoc)
    requires doc.title.Some? && Text.IsBlank(doc.title.value)
    ensures Message(TitleCheck) in ValidateReport(doc)
  {
    TitleFailsIffBlank(doc);
  }

  // ---------------------------------------------------------------------------
  // Colour and label tables

  const DEFAULT_COLOR := "#757575"

  /** `getPriorityColor` */
  function PriorityColor(p: string): (c: string)
    ensures c == DEFAULT_COLOR <==> !IsPriority(p)
  {
    if p == CRITICAL then "#FF0000"
    else if p == HIGH then "#FF9800"
    else if p == MEDIUM then "#2196F3"
    else if p == LOW then "#4CAF50"
    else DEFAULT_COLOR
  }

  /** `getStatusColor`: closed shares the fallback grey with every status the table does not list. */
  function StatusColor(s: string): (c: string)
    ensures c == DEFAULT_COLOR <==>
      s !in [SUBMITTED, AI_PROCESSED, UNDER_REVIEW, IN_PROGRESS, RESOLVED, REJECTED]
  {
    if s == SUBMITTED then "#FFA000"
    else if s == AI_PROCESSED then "#2196F3"
    else if s == UNDER_REVIEW then "#FF9800"
    else if s == IN_PROGRESS then "#9C27B0"
    else if s == RESOLVED then "#4CAF50"
    else if s == CLOSED then DEFAULT_COLOR
    else if s == REJECTED then "#F44336"
    else DEFAULT_COLOR
  }

  /** "ASSIGNED" and "verification_needed" are drawn in the same grey as "closed". */
  lemma GreyStatuses()
    ensures StatusColor(ASSIGNED) == StatusColor(VERIFICATION_NEEDED) == StatusColor(CLOSED) == DEFAULT_COLOR
  {
  }

  /** `formatPriority`: a listed priority gets a label, anything else is shown as is. */
  function FormatPriority(p: string): (shown: string)
    ensures shown == p <==> !IsPriority(p)
  {
    if p == CRITICAL then "\U{1F6A8} Critical"
    else if p == HIGH then "⚠️ High"
    else if p == MEDIUM then "\U{1F536} Medium"
    else if p == LOW then "✅ Low"
    else p
  }

  /** `formatStatus`: seven statuses get a label; "ASSIGNED", "verification_needed" and unknown values are shown as is. */
  function FormatStatus(s: string): (shown: string)
    ensures shown == s <==>
      s !in [SUBMITTED, AI_PROCESSED, UNDER_REVIEW, IN_PROGRESS, RESOLVED, CLOSED, REJECTED]
  {
    if s == SUBMITTED then "Submitted"
    else if s == AI_PROCESSED then "AI Processed"
    else if s == UNDER_REVIEW then "Under Review"
    else if s == IN_PROGRESS then "In Progress"
    else if s == RESOLVED then "Resolved"
    else if s == CLOSED then "Closed"
    else if s == REJECTED then "Rejected"
    else s
  }

  /** `formatIssueType`: a listed issue type gets an emoji label, anything else is shown as is. */
  function FormatIssueType(t: string): (shown: string)
    ensures shown == t <==> !IsIssueType(t)
  {
    if t == "pothole" then "\U{1F573}️ Pothole"
    else if t == "water_leak" then "\U{1F4A7} Water Leak"
    else if t == "garbage" then "\U{1F5D1}️ Garbage"
    else if t == "street_light" then "\U{1F4A1} Street Light"
    else if t == "traffic_signal" then "\U{1F6A6} Traffic Signal"
    else if t == "drainage" then "\U{1F30A} Drainage"
    else if t == "vegetation" then "\U{1F33F} Vegetation"
    else if t == "other" then "\U{1F4CB} Other"
    else t
  }

  // ---------------------------------------------------------------------------
  // createDefaultReport

  /**
   * `createDefaultReport`: every DTO field, then the initial status, priority
   * and machine-learning fields. The timestamps are server placeholders filled
   * in when the document is written, so they are absent here.
   */
  function CreateDefaultReport(dto: CreateReportDTO): (doc: ReportDoc)
    ensures doc.userId == Some(dto.userId) && doc.municipalityId == Some(dto.municipalityId)
    ensures doc.title == Some(dto.title) && doc.description == Some(dto.description)
    ensures doc.issueType == Some(dto.issueType) && doc.imageURLs == Some(dto.imageURLs)
    ensures doc.location == Some(dto.location) && doc.address == Some(dto.address)
    ensures doc.status == Some(SUBMITTED) && doc.priority == Some(MEDIUM)
    ensures doc.aiConfidenceScore == Some(0.0) && doc.mlConfidenceScore == Some(0.0)
    ensures doc.aiClassificationCompleted == Some(false) && doc.mlProcessingStatus == Some("pending")
    ensures doc.mlSuggestions == Some([]) && doc.imageClassifications == Some([])
    ensures doc.assignedTo.None? && doc.resolvedAt.None?
  {
    EmptyReportDoc.(
      userId := Some(dto.userId), municipalityId := Some(dto.municipalityId),
      title := Some(dto.title), description := Some(dto.description),
      issueType := Some(dto.issueType), imageURLs := Some(dto.imageURLs),
      location := Some(dto.location), address := Some(dto.address),
      status := Some(SUBMITTED), priority := Some(MEDIUM),
      aiConfidenceScore := Some(0.0), aiClassificationCompleted := Some(false),
      mlProcessingStatus := Some("pending"), mlConfidenceScore := Some(0.0),
      mlSuggestions := Some([]), imageClassifications := Some([]))
  }

  /** A default report passes validation exactly when the DTO's own fields do. */
  lemma DefaultReportValidIff(dto: CreateReportDTO)
    ensures ValidateReport(CreateDefaultReport(dto)) == [] <==>
      dto.userId != "" && dto.municipalityId != "" && !Text.IsBlank(dto.title) &&
      dto.issueType != "" && HasCoordinates(dto.location)
  {
  }
}
