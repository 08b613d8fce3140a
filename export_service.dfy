/**
 * The report export: the query a set of export filters selects, the flat
 * record each report becomes, the lists of categories and departments the
 * filter menus offer, and the comma-separated text the spreadsheet export
 * writes.
 */
module ExportService {
  import opened Wrappers
  import Text
  import Seqs
  import opened Js
  import opened ReportTypes
  import opened UserTypes
  import opened Firestore

  // ---------------------------------------------------------------------------
  // Filters

  const ALL := "all"

  datatype Period = Period(start: Time, end: Time)

  /** `ExportFilter`: every criterion is optional. */
  datatype ExportFilter = ExportFilter(
    status: Option<string>,
    assignedTo: Option<string>,
    dateRange: Option<Period>,
    category: Option<string>,
    department: Option<string>)

  const NoFilter := ExportFilter(None, None, None, None, None)

  /** `filters.x && filters.x !== 'all'`: the criterion adds a `where` clause. */
  predicate Imposes(o: Option<string>) {
    Truthy(o) && o.value != ALL
  }

  /**
   * The conjunction of the `where` clauses: equality on status, assignedTo,
   * category and assignedDepartment, and an inclusive range on createdAt.
   */
  predicate Matches(f: ExportFilter, d: ReportDoc) {
    (Imposes(f.status) ==> d.status == f.status) &&
    (Imposes(f.assignedTo) ==> d.assignedTo == f.assignedTo) &&
    (f.dateRange.Some? ==> d.createdAt.Some? && f.dateRange.value.start <= d.createdAt.value <= f.dateRange.value.end) &&
    (Imposes(f.category) ==> d.category == f.category) &&
    (Imposes(f.department) ==> d.assignedDepartment == f.department)
  }

  function MatchesDoc(f: ExportFilter): Snapshot<ReportDoc> -> bool {
    (s: Snapshot<ReportDoc>) => Matches(f, s.data)
  }

  /** The filtered query, `orderBy('createdAt', 'desc')` last. */
  function ExportQuery(reports: map<string, ReportDoc>, f: ExportFilter): seq<Snapshot<ReportDoc>> {
    ReportsNewestFirst(Seqs.Filter(Docs(reports), MatchesDoc(f)))
  }

  /**
   * A report is exported exactly when it has a creation time and meets every
   * criterion; the export is newest first.
   */
  lemma ExportQueryExactly(reports: map<string, ReportDoc>, f: ExportFilter, id: string)
    requires id in reports
    ensures Snapshot(id, reports[id]) in ExportQuery(reports, f) <==>
      reports[id].createdAt.Some? && Matches(f, reports[id])
    ensures Seqs.Sorted(ExportQuery(reports, f), NewerReport)
  {
    var s := Snapshot(id, reports[id]);
    var matching := Seqs.Filter(Docs(reports), MatchesDoc(f));
    DocsComplete(reports, id);
    assert s in Docs(reports);
    Seqs.SameMembers(s, ExportQuery(reports, f), Seqs.Filter(matching, HasCreatedAt));
  }

  /** Every exported document is a report of the collection. */
  lemma ExportedAreStored(reports: map<string, ReportDoc>, f: ExportFilter, s: Snapshot<ReportDoc>)
    requires s in ExportQuery(reports, f)
    ensures s.id in reports && s.data == reports[s.id]
  {
    NewestFirstMembers(Seqs.Filter(Docs(reports), MatchesDoc(f)), s);
    DocStored(reports, s);
  }

  /** A criterion that is missing, empty or 'all' selects nothing out: with no criteria every dated report is exported. */
  lemma NoCriteriaSelectsAll(f: ExportFilter, d: ReportDoc)
    requires !Imposes(f.status) && !Imposes(f.assignedTo) && f.dateRange.None?
    requires !Imposes(f.category) && !Imposes(f.department)
    ensures Matches(f, d)
  {
  }

  // ---------------------------------------------------------------------------
  // The users lookup

  /** `acc[doc.id] = user.fullName` over every user document. */
  function UserNames(users: map<string, UserDoc>): (names: map<string, string>)
    ensures forall id :: id in names <==> id in users
  {
    map id | id in users :: users[id].fullName
  }

  /** The `reduce` over query results: each document in turn sets its id to its name. */
  function NamesFrom(docs: seq<Snapshot<UserDoc>>): map<string, string>
    decreases |docs|
  {
    if docs == [] then map[]
    else NamesFrom(docs[..|docs| - 1])[docs[|docs| - 1].id := docs[|docs| - 1].data.fullName]
  }

  /** Over documents of the collection, the fold holds each document's id with its stored name. */
  lemma {:induction false} NamesFromStored(users: map<string, UserDoc>, docs: seq<Snapshot<UserDoc>>)
    requires forall i :: 0 <= i < |docs| ==> docs[i].id in users && docs[i].data == users[docs[i].id]
    ensures forall id :: id in NamesFrom(docs) ==> id in users && NamesFrom(docs)[id] == users[id].fullName
    ensures forall i :: 0 <= i < |docs| ==> docs[i].id in NamesFrom(docs)
    decreases |docs|
  {
    if docs != [] {
      var init := docs[..|docs| - 1];
      assert forall i :: 0 <= i < |init| ==> init[i] == docs[i];
      NamesFromStored(users, init);
    }
  }

  /** Folding over the whole collection gives the id-to-name lookup. */
  lemma NamesFromDocs(users: map<string, UserDoc>)
    ensures NamesFrom(Docs(users)) == UserNames(users)
  {
    var names := NamesFrom(Docs(users));
    var lookup := UserNames(users);
    NamesFromStored(users, Docs(users));
    NamesFromCovers(users);
    SameMaps(names, lookup);
  }

  lemma SameMaps(a: map<string, string>, b: map<string, string>)
    requires forall k :: k in a <==> k in b
    requires forall k :: k in a ==> a[k] == b[k]
    ensures a == b
  {
  }

  /** Every user of the collection is in the fold over its documents. */
  lemma NamesFromCovers(users: map<string, UserDoc>)
    ensures forall id :: id in users ==> id in NamesFrom(Docs(users))
  {
    var docs := Docs(users);
    NamesFromStored(users, docs);
    forall id | id in users ensures id in NamesFrom(docs) {
      DocsComplete(users, id);
      var i :| 0 <= i < |docs| && docs[i] == Snapshot(id, users[id]);
    }
  }

  /** The `reduce` that builds the id-to-name lookup from the users collection. */
  method NamesLookup(db: Database) returns (names: map<string, string>)
    ensures names == UserNames(db.users)
  {
    var docs := Docs(db.users);
    names := ReduceNames(docs);
    NamesFromDocs(db.users);
  }

  /** The `reduce` itself, one document at a time. */
  method ReduceNames(docs: seq<Snapshot<UserDoc>>) returns (names: map<string, string>)
    ensures names == NamesFrom(docs)
  {
    names := map[];
    var i := 0;
    while i < |docs|
      invariant 0 <= i <= |docs|
      invariant names == NamesFrom(docs[..i])
    {
      assert docs[..i + 1][..i] == docs[..i];
      names := names[docs[i].id := docs[i].data.fullName];
      i := i + 1;
    }
    assert docs[..|docs|] == docs;
  }

  // ---------------------------------------------------------------------------
  // The export record

  const NO_TITLE := "No Title"
  const UNCATEGORIZED := "Uncategorized"
  const UNKNOWN := "Unknown"
  const EXPORT_PRIORITY := "MEDIUM"
  const UNASSIGNED := "Unassigned"
  const NO_LOCATION := "No Location"

  /** `ReportExportData` */
  datatype ExportRecord = ExportRecord(
    id: string, title: string, description: string, category: string, status: string,
    priority: string, assignedTo: string, assignedDepartment: string, createdAt: string,
    resolvedAt: Option<string>, location: string, rating: Option<int>, feedback: Option<string>)

  /** `users[report.assignedTo] || 'Unassigned'` */
  function AssigneeName(names: map<string, string>, assignedTo: Option<string>): (name: string)
    ensures name != ""
    ensures name != UNASSIGNED ==> assignedTo.Some? && assignedTo.value in names && names[assignedTo.value] == name
  {
    if assignedTo.Some? && assignedTo.value in names && names[assignedTo.value] != "" then names[assignedTo.value]
    else UNASSIGNED
  }

  /** `report.createdAt?.toDate().toLocaleDateString() || 'Unknown'`, with the locale rendering given as `formatDate`. */
  function DateText(t: Option<Time>, formatDate: Time -> string): string {
    if t.Some? && formatDate(t.value) != "" then formatDate(t.value) else UNKNOWN
  }

  /**
   * The record a report becomes: each text column is the stored value or,
   * when that is missing or empty, its default, so every text column is
   * filled in; the optional dates, rating and feedback stay optional.
   */
  function ToExportRecord(s: Snapshot<ReportDoc>, names: map<string, string>, formatDate: Time -> string): (r: ExportRecord)
    ensures r.id == s.id && r.rating == s.data.rating && r.feedback == s.data.feedback
    ensures r.title != "" && r.category != "" && r.status != "" && r.priority != ""
    ensures r.assignedTo != "" && r.assignedDepartment != "" && r.createdAt != "" && r.location != ""
    ensures r.title != NO_TITLE ==> s.data.title == Some(r.title)
    ensures r.assignedDepartment != UNASSIGNED ==> s.data.assignedDepartment == Some(r.assignedDepartment)
    ensures r.resolvedAt.Some? <==> s.data.resolvedAt.Some?
    ensures r.title == OrString(s.data.title, NO_TITLE) && r.description == OrString(s.data.description, "")
    ensures r.category == OrString(s.data.category, UNCATEGORIZED) && r.status == OrString(s.data.status, UNKNOWN)
    ensures r.priority == OrString(s.data.priority, EXPORT_PRIORITY)
    ensures r.assignedTo == AssigneeName(names, s.data.assignedTo)
    ensures r.assignedDepartment == OrString(s.data.assignedDepartment, UNASSIGNED)
    ensures r.createdAt == DateText(s.data.createdAt, formatDate)
    ensures r.resolvedAt.Some? ==> r.resolvedAt == Some(formatDate(s.data.resolvedAt.value))
    ensures r.location == OrString(if s.data.location.Some? then s.data.location.value.address else None, NO_LOCATION)
  {
    var d := s.data;
    ExportRecord(
      s.id,
      OrString(d.title, NO_TITLE),
      OrString(d.description, ""),
      OrString(d.category, UNCATEGORIZED),
      OrString(d.status, UNKNOWN),
      OrString(d.priority, EXPORT_PRIORITY),
      AssigneeName(names, d.assignedTo),
      OrString(d.assignedDepartment, UNASSIGNED),
      DateText(d.createdAt, formatDate),
      if d.resolvedAt.Some? then Some(formatDate(d.resolvedAt.value)) else None,
      OrString(if d.location.Some? then d.location.value.address else None, NO_LOCATION),
      d.rating,
      d.feedback)
  }

  function RecordOf(names: map<string, string>, formatDate: Time -> string): Snapshot<ReportDoc> -> ExportRecord {
    (s: Snapshot<ReportDoc>) => ToExportRecord(s, names, formatDate)
  }

  /**
   * `getReportsForExport`: one record per report the filters select, in the
   * query's order, with assignees named through the users lookup.
   */
  method GetReportsForExport(db: Database, filters: ExportFilter, formatDate: Time -> string)
    returns (data: seq<ExportRecord>)
    ensures data == Seqs.Map(ExportQuery(db.reports, filters), RecordOf(UserNames(db.users), formatDate))
  {
    var reports := ExportQuery(db.reports, filters);
    var names := NamesLookup(db);
    data := Seqs.Map(reports, RecordOf(names, formatDate));
  }

  /**
   * A report whose `assignedTo` holds a name rather than a user id, as the
   * assignment writes it, is exported as 'Unassigned'.
   */
  lemma NameAssigneeExportsUnassigned(users: map<string, UserDoc>, s: Snapshot<ReportDoc>, formatDate: Time -> string)
    requires s.data.assignedTo.Some? && s.data.assignedTo.value !in users
    ensures ToExportRecord(s, UserNames(users), formatDate).assignedTo == UNASSIGNED
  {
  }

  /** A report assigned by id to a user with a name is exported under that name. */
  lemma IdAssigneeExportsName(users: map<string, UserDoc>, s: Snapshot<ReportDoc>, formatDate: Time -> string)
    requires s.data.assignedTo.Some? && s.data.assignedTo.value in users
    requires users[s.data.assignedTo.value].fullName != ""
    ensures ToExportRecord(s, UserNames(users), formatDate).assignedTo == users[s.data.assignedTo.value].fullName
  {
  }

  // ---------------------------------------------------------------------------
  // getEmployees

  datatype EmployeeOption = EmployeeOption(id: string, name: string, department: string)

  function ToEmployeeOption(s: Snapshot<UserDoc>): EmployeeOption {
    EmployeeOption(s.id, s.data.fullName, OrString(s.data.department, UNASSIGNED))
  }

  /**
   * `getEmployees`: one option per ADMIN or EMPLOYEE document, active or not,
   * with `department || 'Unassigned'`. `StaffOptionListed` and
   * `StaffOptionsAscending` state that none is missing and the query's order.
   */
  function GetEmployees(users: map<string, UserDoc>): (r: seq<EmployeeOption>)
    ensures forall e :: e in r ==>
      e.id in users && IsStaffDoc(Snapshot(e.id, users[e.id])) && e.name == users[e.id].fullName &&
      e.department == OrString(users[e.id].department, UNASSIGNED)
  {
    var staff := StaffDocs(users);
    var r := Seqs.Map(staff, ToEmployeeOption);
    forall e | e in r
      ensures e.id in users && IsStaffDoc(Snapshot(e.id, users[e.id])) && e.name == users[e.id].fullName &&
        e.department == OrString(users[e.id].department, UNASSIGNED)
    {
      var i :| 0 <= i < |r| && r[i] == e;
      assert staff[i] in staff;
      DocStored(users, staff[i]);
    }
    r
  }

  /** `where('userType', 'in', ['EMPLOYEE', 'ADMIN'])` over the collection, in ascending id order. */
  function StaffDocs(users: map<string, UserDoc>): seq<Snapshot<UserDoc>> {
    Seqs.Filter(Docs(users), IsStaffDoc)
  }

  /** Every staff document has its option in the list. */
  lemma StaffOptionListed(users: map<string, UserDoc>, id: string)
    requires id in users && IsStaffDoc(Snapshot(id, users[id]))
    ensures EmployeeOption(id, users[id].fullName, OrString(users[id].department, UNASSIGNED)) in GetEmployees(users)
  {
    DocsComplete(users, id);
    var i :| 0 <= i < |Docs(users)| && Docs(users)[i] == Snapshot(id, users[id]);
    assert Snapshot(id, users[id]) in Docs(users);
    Seqs.MapFilterMember(Docs(users), IsStaffDoc, ToEmployeeOption, Snapshot(id, users[id]));
  }

  /** The options keep the query's ascending id order, so no staff member is listed twice. */
  lemma StaffOptionsAscending(users: map<string, UserDoc>)
    ensures forall i, j :: 0 <= i < j < |GetEmployees(users)| ==> Text.StrLt(GetEmployees(users)[i].id, GetEmployees(users)[j].id)
  {
    var docs := Docs(users);
    var r := GetEmployees(users);
    var idx := Seqs.FilterEmbedding(docs, IsStaffDoc);
    IdsAscending(users);
    forall i, j | 0 <= i < j < |r| ensures Text.StrLt(r[i].id, r[j].id) {
      assert r[i].id == docs[idx[i]].id == Ids(users)[idx[i]];
      assert r[j].id == docs[idx[j]].id == Ids(users)[idx[j]];
    }
  }

  // ---------------------------------------------------------------------------
  // getCategories and getDepartments

  function CategoryField(d: ReportDoc): Option<string> { d.category }

  function DepartmentField(d: ReportDoc): Option<string> { d.assignedDepartment }

  /** The non-empty values a field takes over a list of documents. */
  function Values(docs: seq<Snapshot<ReportDoc>>, field: ReportDoc -> Option<string>): set<string>
    decreases |docs|
  {
    if docs == [] then {}
    else
      var last := docs[|docs| - 1];
      Values(docs[..|docs| - 1], field) + (if Truthy(field(last.data)) then {field(last.data).value} else {})
  }

  lemma {:induction false} ValuesMembers(docs: seq<Snapshot<ReportDoc>>, field: ReportDoc -> Option<string>, x: string)
    ensures x in Values(docs, field) <==> exists i :: 0 <= i < |docs| && field(docs[i].data) == Some(x) && x != ""
    decreases |docs|
  {
    if docs != [] {
      var init := docs[..|docs| - 1];
      ValuesMembers(init, field, x);
      assert forall i :: 0 <= i < |init| ==> init[i] == docs[i];
    }
  }

  /** The `forEach` that adds each non-empty value to a `Set`, then `Array.from(set).sort()`. */
  method DistinctValues(docs: seq<Snapshot<ReportDoc>>, field: ReportDoc -> Option<string>) returns (r: seq<string>)
    ensures r == Text.SortedStrings(Values(docs, field))
  {
    var found: set<string> := {};
    var i := 0;
    while i < |docs|
      invariant 0 <= i <= |docs|
      invariant found == Values(docs[..i], field)
    {
      var v := field(docs[i].data);
      Seqs.PrefixSnoc(docs, i);
      assert docs[..i + 1][..i] == docs[..i];
      if Truthy(v) {
        found := found + {v.value};
      }
      i := i + 1;
    }
    assert docs[..|docs|] == docs;
    r := Text.SortedStrings(found);
  }

  /** `getCategories` */
  method GetCategories(db: Database) returns (categories: seq<string>)
    ensures categories == Text.SortedStrings(Values(Docs(db.reports), CategoryField))
  {
    categories := DistinctValues(Docs(db.reports), CategoryField);
  }

  /** `getDepartments` */
  method GetDepartments(db: Database) returns (departments: seq<string>)
    ensures departments == Text.SortedStrings(Values(Docs(db.reports), DepartmentField))
  {
    departments := DistinctValues(Docs(db.reports), DepartmentField);
  }

  /**
   * The option lists are ascending, without repeats, and hold exactly the
   * non-empty values some report stores.
   */
  lemma OptionListExactly(reports: map<string, ReportDoc>, field: ReportDoc -> Option<string>, x: string)
    ensures Text.StrictlyIncreasing(Text.SortedStrings(Values(Docs(reports), field)))
    ensures x in Text.SortedStrings(Values(Docs(reports), field)) <==>
      x != "" && exists id :: id in reports && field(reports[id]) == Some(x)
  {
    var docs := Docs(reports);
    ValuesMembers(docs, field, x);
    if x != "" && exists id :: id in reports && field(reports[id]) == Some(x) {
      var id :| id in reports && field(reports[id]) == Some(x);
      DocsComplete(reports, id);
    }
  }

  // ---------------------------------------------------------------------------
  // exportToExcel: the CSV text

  const HEADERS: seq<string> :=
    ["ID", "Title", "Description", "Category", "Status", "Priority", "Assigned To", "Department",
     "Created Date", "Resolved Date", "Location", "Rating", "Feedback"]

  /** `s.replace(/"/g, '""')` */
  function EscapeQuotes(s: string): (r: string)
    ensures |r| >= |s|
    decreases |s|
  {
    if s == [] then []
    else (if s[0] == '"' then "\"\"" else [s[0]]) + EscapeQuotes(s[1..])
  }

  /** A field wrapped in double quotes, each quote inside doubled (section 2, rule 7 of RFC 4180). */
  function Quote(s: string): (r: string)
    ensures |r| >= 2 && r[0] == '"' && r[|r| - 1] == '"'
  {
    "\"" + EscapeQuotes(s) + "\""
  }

  /** The inverse of the doubling: a pair of quotes is one quote; a lone quote is malformed. */
  function UnescapeQuotes(t: string): Option<string>
    decreases |t|
  {
    if t == [] then Some([])
    else if t[0] == '"' then
      if |t| >= 2 && t[1] == '"' then
        match UnescapeQuotes(t[2..]) case Some(rest) => Some("\"" + rest) case None => None
      else None
    else
      match UnescapeQuotes(t[1..]) case Some(rest) => Some([t[0]] + rest) case None => None
  }

  /** Reading a quoted field: strip the outer quotes, then undo the doubling. */
  function Unquote(t: string): Option<string> {
    if |t| >= 2 && t[0] == '"' && t[|t| - 1] == '"' then UnescapeQuotes(t[1..|t| - 1]) else None
  }

  lemma {:induction false} EscapeRoundTrip(s: string)
    ensures UnescapeQuotes(EscapeQuotes(s)) == Some(s)
    decreases |s|
  {
    if s != [] {
      EscapeRoundTrip(s[1..]);
      var t := EscapeQuotes(s);
      if s[0] == '"' {
        assert t[2..] == EscapeQuotes(s[1..]);
      } else {
        assert t[1..] == EscapeQuotes(s[1..]);
      }
      assert s == [s[0]] + s[1..];
    }
  }

  /** A quoted field reads back as the text it was made from. */
  lemma QuoteRoundTrip(s: string)
    ensures Unquote(Quote(s)) == Some(s)
  {
    var q := Quote(s);
    assert q[1..|q| - 1] == EscapeQuotes(s);
    EscapeRoundTrip(s);
  }

  /** `report.rating || ''`: a missing rating and a rating of 0 give an empty field. */
  function RatingText(rating: Option<int>): (t: string)
    ensures t == "" <==> rating.None? || rating.value == 0
  {
    if rating.Some? && rating.value != 0 then Text.IntToString(rating.value) else ""
  }

  /** The thirteen fields of a record's row: the free-text columns quoted, the others as they are. */
  function Row(r: ExportRecord): (fields: seq<string>)
    ensures |fields| == |HEADERS|
    ensures fields[0] == r.id && fields[3] == r.category && fields[4] == r.status && fields[5] == r.priority
    ensures fields[6] == r.assignedTo && fields[7] == r.assignedDepartment && fields[8] == r.createdAt
    ensures fields[9] == "" <==> !Truthy(r.resolvedAt)
    ensures fields[11] == "" <==> r.rating.None? || r.rating.value == 0
  {
    [r.id, Quote(r.title), Quote(r.description), r.category, r.status, r.priority, r.assignedTo,
     r.assignedDepartment, r.createdAt, OrString(r.resolvedAt, ""), Quote(r.location),
     RatingText(r.rating), Quote(OrString(r.feedback, ""))]
  }

  /** The quoted columns of a row read back as the record's title, description, location and feedback. */
  lemma RowReadsBack(r: ExportRecord)
    ensures Unquote(Row(r)[1]) == Some(r.title) && Unquote(Row(r)[2]) == Some(r.description)
    ensures Unquote(Row(r)[10]) == Some(r.location) && Unquote(Row(r)[12]) == Some(OrString(r.feedback, ""))
  {
    var row := Row(r);
    assert row[1] == Quote(r.title) && row[2] == Quote(r.description);
    assert row[10] == Quote(r.location) && row[12] == Quote(OrString(r.feedback, ""));
    QuoteRoundTrip(r.title);
    QuoteRoundTrip(r.description);
    QuoteRoundTrip(r.location);
    QuoteRoundTrip(OrString(r.feedback, ""));
  }

  function RowLine(r: ExportRecord): string {
    Text.Join(Row(r), ",")
  }

  /** The lines of the file: the header line, then one line per record in order. */
  function CsvLines(data: seq<ExportRecord>): (lines: seq<string>)
    ensures |lines| == |data| + 1
    ensures lines[0] == Text.Join(HEADERS, ",")
    ensures forall i :: 0 <= i < |data| ==> lines[i + 1] == RowLine(data[i])
  {
    var rows := Seqs.Map(data, RowLine);
    assert forall i :: 0 <= i < |data| ==> ([Text.Join(HEADERS, ",")] + rows)[i + 1] == rows[i];
    [Text.Join(HEADERS, ",")] + rows
  }

  /** The CSV text: the lines joined with a line feed. */
  function Csv(data: seq<ExportRecord>): string {
    Text.Join(CsvLines(data), "\n")
  }

  /** No line break inside a text. */
  predicate OneLine(s: string) { '\n' !in s }

  /**
   * When no field of any record holds a line break, splitting the text at
   * line feeds gives back the header line and one line per record.
   */
  lemma CsvSplitsIntoRows(data: seq<ExportRecord>)
    requires forall i :: 0 <= i < |data| ==> OneLine(RowLine(data[i]))
    ensures Text.Split(Csv(data), '\n') == CsvLines(data)
  {
    var lines := CsvLines(data);
    assert OneLine(lines[0]) by { HeaderIsOneLine(); }
    forall i | 0 <= i < |lines| ensures '\n' !in lines[i] {
      if i > 0 {
        assert lines[i] == RowLine(data[i - 1]);
      }
    }
    Text.SplitJoin(lines, '\n');
  }

  lemma HeaderIsOneLine()
    ensures OneLine(Text.Join(HEADERS, ","))
  {
    JoinOneLine(HEADERS, ",");
  }

  lemma {:induction false} JoinOneLine(parts: seq<string>, sep: string)
    requires OneLine(sep) && forall i :: 0 <= i < |parts| ==> OneLine(parts[i])
    ensures OneLine(Text.Join(parts, sep))
    decreases |parts|
  {
    if |parts| > 1 {
      JoinOneLine(parts[1..], sep);
      assert forall c :: c in parts[0] + sep + Text.Join(parts[1..], sep) ==>
        c in parts[0] || c in sep || c in Text.Join(parts[1..], sep);
    }
  }
}
