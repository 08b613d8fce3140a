# Municipal service-request dashboard, modelled in Dafny

This project models the core of a municipal service-request dashboard. Residents file service reports. Staff triage them, assign them to employees and resolve them. Administrators manage user accounts, look at statistics and export reports as CSV. The application keeps everything in a document store with `users` and `reports` collections. Each report has two sub-collections, `comments` and `statusHistory`.

The model uses these conventions:

- **The document store** is the class `Firestore.Database`.
  - `users` and `reports` are maps from document id to document.
  - `comments` and `history` map a report id to an append-only log.
  - `clock` is a counter. Every server timestamp advances it by one.
  - A collection read lists documents in ascending id order.
  - A `where` clause is a filter over that listing.
  - An `orderBy` is a stable sort, and it drops documents that lack the ordered field.
  - Updating a missing document fails. Adding to a sub-collection always succeeds.
- **Services** are methods taking the database (`modifies db`). They state the whole new state and what stays unchanged.
- **React screens** are classes whose fields are the component's state.
  - Each filter effect is a method that rebuilds the filtered list stage by stage.
  - The ghost predicate `Valid()` says the effect has run for the current state.
  - A confirmation dialog, a failing call and the clock are parameters.
- **Time** is integer milliseconds; a day is a UTC day.
- **Percentages** are compared by cross-multiplication. `Math.round` is computed exactly on integers, giving results in tenths or as percentages.
- **JavaScript `||` defaults** live in the module `Js`. A missing field and a falsy value (`''`, `0`, `false`) both take the default.

The modules follow the source files:

| module | source |
|---|---|
| `ReportTypes` | `src/types/reports.ts` |
| `ReportService` | `src/services/reportService.ts` |
| `EmployeeService` | `src/services/employeeService.ts` |
| `AssignmentModal` | `src/components/assignment/AssignmentModal.tsx` |
| `AnalyticsService` | `src/services/analyticsService.ts` |
| `ExportService` | `src/services/exportService.ts` |
| `UserService` | `src/services/userService.ts` |
| `UserModal` | `src/components/users/UserModal.tsx` |
| `UsersClient` | `src/app/dashboard/users/UsersClient.tsx` |
| `AssignmentsClient` | `src/app/dashboard/assignments/AssignmentsClient.tsx` |
| `ReportsClient` | `src/app/dashboard/reports/ReportsClient.tsx` |
| `DashboardService` | `src/services/dashboardService.ts` |
| `DashboardPage` | `src/app/dashboard/page.tsx` |
| `Sidebar` | `src/components/layout/sidebar.tsx` |

The assignment dialog's `onAssign` callback is `handleAssignReport` of the report-details screen, `src/app/dashboard/reports/[id]/ReportDetailsClient.tsx` (lines 60-83). It is modelled in `AssignmentModal` as `OnAssign`, and the actor record it builds as `ActorOf`.

`UserTypes` holds the user record and the user-type constants. `Firestore`, `Grouping`, `Seqs`, `Text`, `Js` and `Wrappers` are support modules. They cover the store, group-by with counts, sequence filters and sorts, strings and number printing, JavaScript defaults, and `Option`/`Result`.

The source is reproduced as written, including these inconsistencies:

- `assignReport` stores the employee's full name in `assignedTo`, but the other screens compare that field with a user id.
- The assignment history entry uses a lowercase `'assigned'`, while the status enumeration has an uppercase `'ASSIGNED'`.
- An assignment never changes an employee's `currentWorkload`.
- Multi-write operations are separate writes, not transactions.
- The users screen's save handler catches a failed update and only alerts. The user dialog's await therefore resolves, and the dialog closes as if the save had succeeded (`UsersClient.Screen.SubmitEdit`).

## Model

| member | source | states |
|---|---|---|
| ReportTypes.EnumerationFacts | src/types/reports.ts:19-49 | There are nine distinct statuses (uppercase 'ASSIGNED' included, lowercase 'assigned' and 'unassigned' not), four priorities and eight issue types; 'other' is an issue type and 'OTHER' is not |
| ReportTypes.ValidateReport | src/types/reports.ts:422-435 | The errors are the messages of the failing checks in check order, and the list is empty exactly when the document is valid |
| ReportTypes.TitleFailsIffBlank | src/types/reports.ts:427 | The title check fails exactly when the title is missing or blank after trimming |
| ReportTypes.ValidateReportIsFilter | src/types/reports.ts:425-432 | The error list is the concatenation, in order, of each check's message when that check fails |
| ReportTypes.NoMessageIffValid | src/types/reports.ts:422-435 | The concatenated check messages are empty exactly when the document passes every check |
| ReportTypes.MessageReportedIffFails | src/types/reports.ts:425-432 | A check's message is in the result exactly when that check fails |
| ReportTypes.FailedCheckReported | src/types/reports.ts:425-432 | A failing check's message is reported |
| ReportTypes.PassedCheckNotReported | src/types/reports.ts:425-432 | A passing check's message is not reported |
| ReportTypes.LocationMessages | src/types/reports.ts:429-432 | 'Location is required' is reported exactly when the location is missing; the coordinates message exactly when a location is present without numeric coordinates |
| ReportTypes.BlankTitleRejected | src/types/reports.ts:427 | A whitespace-only title gives 'Title is required' |
| ReportTypes.PriorityColor | src/types/reports.ts:438-446 | The default colour is returned exactly for strings that are not priorities |
| ReportTypes.StatusColor | src/types/reports.ts:448-459 | The default grey is returned exactly for statuses outside the six listed ones |
| ReportTypes.GreyStatuses | src/types/reports.ts:448-459 | 'ASSIGNED', 'verification_needed' and 'closed' all get the default grey |
| ReportTypes.FormatPriority | src/types/reports.ts:461-469 | The input comes back unchanged exactly when it is not a priority |
| ReportTypes.FormatStatus | src/types/reports.ts:471-482 | The input comes back unchanged exactly when it is not one of the seven labelled statuses, so 'ASSIGNED' is shown as is |
| ReportTypes.FormatIssueType | src/types/reports.ts:484-496 | The input comes back unchanged exactly when it is not an issue type |
| ReportTypes.CreateDefaultReport | src/types/reports.ts:499-513 | Every field of the creation input is kept; status 'submitted', priority 'medium', zero scores, processing 'pending', empty suggestion and classification lists, no assignee, not resolved |
| ReportTypes.DefaultReportValidIff | src/types/reports.ts:422-435 | A freshly created report validates exactly when user id, municipality and issue type are non-empty, the title is not blank and the location has numeric coordinates |
| ReportService.FirestoreToReport | src/services/reportService.ts:258-291 | Each modelled field is the stored value or, when missing or falsy, its default: 'submitted', 'medium', 'Untitled Report', 'OTHER', '' for user, municipality, description and address, 0 for both scores, false for the classification flag, 'pending' for the ML status, [] for images, suggestions and classifications, and a default location; stored times are used when present, otherwise the current instant |
| ReportService.MissingFieldsDefaults | src/services/reportService.ts:265-275 | An empty document reads as 'submitted', 'medium' and 'Untitled Report'; its issue type 'OTHER' fails the issue-type guard while its status passes the status guard |
| ReportService.DefaultReportReadsBack | src/services/reportService.ts:258-291 | A report created with the defaults reads back with its user, title, issue type, location and images, status 'submitted', priority 'medium' and no assignee |
| ReportService.GetAllReports | src/services/reportService.ts:46-67 | The result is the read of the dated report documents, newest first |
| ReportService.ReadReports | src/services/reportService.ts:56-60 | The loop pushes one report record per returned document, in the order of the query |
| ReportService.AllReportsNewestFirst | src/services/reportService.ts:50-53 | Creation times never increase along the list |
| ReportService.DatedReport | src/services/reportService.ts:50-53 | Every listed document has a creation time |
| ReportService.AllReportsComplete | src/services/reportService.ts:46-67 | Every dated report document appears in the list |
| ReportService.DatedReportListed | src/services/reportService.ts:50-53 | Every dated report document is returned by the query |
| ReportService.GetReportById | src/services/reportService.ts:70-84 | A report is returned exactly when the id exists, and it is that stored document read through `FirestoreToReport` |
| ReportService.AssignmentKeepsContent | src/services/reportService.ts:309-315 | Assigning leaves status, priority and every content field unchanged, and the report then reads back as assigned to the name |
| ReportService.UnassignUndoesAssign | src/services/reportService.ts:346-352 | Unassigning after assigning is the same document as unassigning alone, and unassigning keeps the content |
| ReportService.AddComment | src/services/reportService.ts:136-173 | One comment with the report id, author and content is appended; on an existing report its update time is bumped and the comment is returned, on a missing one the append stays and the update fails; users and history are untouched |
| ReportService.AddStatusHistory | src/services/reportService.ts:241-255 | Exactly one history entry with the given fields is appended to that report's log, and nothing else changes |
| ReportService.GetComments | src/services/reportService.ts:176-205 | The comments are the report's log, mapped to records, in insertion order |
| ReportService.ReadComments | src/services/reportService.ts:184-198 | The loop pushes one comment record per returned document, in order |
| ReportService.GetStatusHistory | src/services/reportService.ts:208-238 | The entries are the report's log, mapped to records, in insertion order |
| ReportService.ReadHistory | src/services/reportService.ts:216-231 | The loop pushes one history record per returned document, in order |
| ReportService.UpdateReportStatus | src/services/reportService.ts:102-133 | A missing report fails with 'Report not found' and writes nothing; otherwise the status becomes the new one and exactly one history entry records the read old status, the new status, the actor's uid and email, the notes and automatic false |
| ReportService.WriteAssignment | src/services/reportService.ts:309-333 | The report gets the employee's name and id and a fresh assignment time; one history entry '' to 'assigned' with the assignment note and one assignment comment are appended |
| ReportService.AssignReport | src/services/reportService.ts:299-339 | An id that is not an active employee fails with 'Employee not found' before any write; a missing report then fails with nothing written; otherwise the report, history and comments change exactly as the assignment writes say, and users are untouched |
| ReportService.UnassignReport | src/services/reportService.ts:341-376 | The assignee fields are cleared, and a history entry 'assigned' to 'unassigned' and the fixed comment are appended; no existence check is made, and a missing report fails at the first update with nothing written |
| ReportService.WriteUnassignment | src/services/reportService.ts:346-370 | On an existing report the three assignee fields become null at a fresh time, one history entry 'assigned' to 'unassigned' and the fixed comment are appended, and the comment touches the report once more |
| ReportService.AssignmentEntriesAreNotStatuses | src/services/reportService.ts:320 | The history values 'assigned' and 'unassigned' are not report statuses |
| Firestore.CommentQueryInInsertionOrder | src/services/reportService.ts:178-181 | Ordering a comment log by creation time ascending gives the log back in insertion order |
| Firestore.HistoryQueryInInsertionOrder | src/services/reportService.ts:210-213 | Ordering a history log by timestamp ascending gives the log back in insertion order |
| EmployeeService.ToEmployee | src/services/employeeService.ts:40-54 | id, email, name, type, department and phone are the stored ones; active unless stored false; skills default to [], workload to 0; the maximum is the stored one unless missing or zero, then 5, so it is never 0; a missing creation time is `now` |
| EmployeeService.GetActiveEmployees | src/services/employeeService.ts:27-62 | The result is the active EMPLOYEE documents, by full name ascending, built one by one |
| EmployeeService.GetEmployeesByDepartment | src/services/employeeService.ts:65-101 | The result is the active EMPLOYEE documents of the department, by full name, built one by one |
| EmployeeService.ReadEmployees | src/services/employeeService.ts:39-55 | The loop pushes one employee record per returned document, in order |
| EmployeeService.ActiveDocsAreActive | src/services/employeeService.ts:29-34 | Every document the query returns is a stored active employee |
| EmployeeService.ActiveDocsComplete | src/services/employeeService.ts:29-34 | Every stored active employee is returned |
| EmployeeService.ActiveEmployeesAreActiveEmployees | src/services/employeeService.ts:27-62 | The list holds exactly the stored active employees, sorted by full name |
| EmployeeService.DirectoryIsActive | src/services/employeeService.ts:29-36 | Every listed employee is a stored EMPLOYEE whose flag is stored as true |
| EmployeeService.DirectoryIsComplete | src/services/employeeService.ts:29-36 | Every stored active EMPLOYEE is listed |
| EmployeeService.DirectoryIsSorted | src/services/employeeService.ts:29-36 | The listed employees are in ascending full-name order |
| EmployeeService.DepartmentIsFilterOfActive | src/services/employeeService.ts:67-73 | The department list is the active list filtered by exact department, in the same order |
| EmployeeService.FindById | src/services/employeeService.ts:107 | No result exactly when no employee has the id; otherwise the first employee with that id |
| EmployeeService.GetEmployeeById | src/services/employeeService.ts:104-110 | The result is the first active employee with the id |
| EmployeeService.NotActiveNotFound | src/services/employeeService.ts:104-107 | A missing, inactive or non-employee user is not found even when the document exists |
| EmployeeService.ActiveEmployeeFound | src/services/employeeService.ts:104-107 | An active employee is found, as read from the document |
| AssignmentModal.TruthyDepartments | src/components/assignment/AssignmentModal.tsx:45 | Holds exactly the non-empty departments of the employees |
| AssignmentModal.DepartmentOptionsFacts | src/components/assignment/AssignmentModal.tsx:45-46 | 'all' comes first, followed by each distinct non-empty department once, in first-appearance order |
| AssignmentModal.FilteredIsOneFilter | src/components/assignment/AssignmentModal.tsx:56-74 | The two stages are one filter, an order-preserving subsequence; no term with 'all' keeps everyone |
| AssignmentModal.ShownExactly | src/components/assignment/AssignmentModal.tsx:60-71 | An employee is shown exactly when the term is empty or matches name, email or department ignoring case, and the department is 'all' or equal |
| AssignmentModal.ColorMatchesText | src/components/assignment/AssignmentModal.tsx:99-110 | Green goes with light, yellow with moderate and red with heavy |
| AssignmentModal.WorkloadBands | src/components/assignment/AssignmentModal.tsx:95-110 | Light below 60 %, moderate from 60 % to below 85 %, heavy from 85 %; 9 of 10 is heavy |
| AssignmentModal.WorkloadMonotone | src/components/assignment/AssignmentModal.tsx:95-110 | For a fixed maximum, more current workload never gives a lighter label |
| AssignmentModal.ActorOf | src/services/reportService.ts:299-304 | The `assignedBy` actor handed to `assignReport` is the signed-in user: same uid and user type, with email 'Unknown' when it has none |
| AssignmentModal.OnAssign | src/components/assignment/AssignmentModal.tsx:76-81 | Succeeds exactly when the employee is active and the report exists, and then the report is assigned to that employee's id and name |
| AssignmentModal.Dialog.constructor | src/components/assignment/AssignmentModal.tsx:23-30 | Empty lists, nothing selected, no notes or term, department 'all' |
| AssignmentModal.Dialog.LoadEmployees | src/components/assignment/AssignmentModal.tsx:38-54 | The employees are the active ones, the options are derived from them, and the filters are applied |
| AssignmentModal.Dialog.SetEmployees | src/components/assignment/AssignmentModal.tsx:42-52 | The employees and the department options are the given ones, the shown list is all employees, and loading is off; the criteria, selection, notes and open flag stay |
| AssignmentModal.Dialog.FilterEffect | src/components/assignment/AssignmentModal.tsx:56-74 | The shown list is the filter of the employees by the current term and department; nothing else changes |
| AssignmentModal.Dialog.SetSearchTerm | src/components/assignment/AssignmentModal.tsx:28 | The term changes and the list is refiltered |
| AssignmentModal.Dialog.SetDepartment | src/components/assignment/AssignmentModal.tsx:29 | The department changes and the list is refiltered |
| AssignmentModal.Dialog.Select | src/components/assignment/AssignmentModal.tsx:25 | Only the selection changes |
| AssignmentModal.Dialog.SetNotes | src/components/assignment/AssignmentModal.tsx:26 | Only the notes change |
| AssignmentModal.Dialog.SetLoading | src/components/assignment/AssignmentModal.tsx:27 | Only the loading flag changes |
| AssignmentModal.Dialog.CloseAndReset | src/components/assignment/AssignmentModal.tsx:82-87 | Closed, with selection, notes and term cleared and department 'all', so every employee is shown |
| AssignmentModal.Dialog.HandleAssign | src/components/assignment/AssignmentModal.tsx:76-93 | With nothing selected, nothing happens; otherwise it succeeds exactly when the employee is active and the report exists; success closes and resets the form, and a failure keeps it open as it was |
| AnalyticsService.BucketsBounded | src/services/analyticsService.ts:61-71 | The resolved and pending buckets are disjoint, so together they count at most the reports |
| AnalyticsService.BucketedStatuses | src/services/analyticsService.ts:61-71 | A report falls in a bucket exactly when its status is one of the seven listed; submitted, rejected and missing statuses fall in neither |
| AnalyticsService.RoundDiv | src/services/analyticsService.ts:330 | The result is the integer nearest to the quotient, halves rounded up (`Math.round`) |
| AnalyticsService.RoundDivBetween | src/services/analyticsService.ts:383 | Rounding keeps a quotient within integer bounds |
| AnalyticsService.RoundDivExact | src/services/analyticsService.ts:330 | An exact quotient is returned unchanged |
| AnalyticsService.RangeDays | src/services/analyticsService.ts:352-364 | 30 exactly for '30d', 90 exactly for '90d', and 7 for every other string |
| AnalyticsService.GetDateRange | src/services/analyticsService.ts:347-373 | The range starts at midnight of the day that many days back and ends at the last millisecond of today, containing now |
| AnalyticsService.DayOfMidnight | src/services/analyticsService.ts:352-364 | A time within a day belongs to that day |
| AnalyticsService.GetTimeRanges | src/services/analyticsService.ts:386-393 | Three distinct range values, each naming the number of days the date range uses for it |
| AnalyticsService.SatisfactionRate | src/services/analyticsService.ts:375-384 | 0 when no report has a rating, otherwise the mean of the ratings rounded to tenths |
| AnalyticsService.SatisfactionOnScale | src/services/analyticsService.ts:375-384 | With ratings between 1 and 5, the rate lies between 1.0 and 5.0 |
| AnalyticsService.GetOverview | src/services/analyticsService.ts:36-110 | Resolved plus pending never exceed the total; no reports give a satisfaction rate of 0; the staff count is at most the number of user documents |
| AnalyticsService.OverviewCountsRange | src/services/analyticsService.ts:40-44 | A report is counted exactly when it has a creation time inside the range |
| AnalyticsService.GroupByDay | src/services/analyticsService.ts:127-147 | The accumulator holds, for every day, the bucket of exactly the reports created that day |
| AnalyticsService.GetReportTrends | src/services/analyticsService.ts:112-172 | The trends are the day series of the ranged reports from the first day of the range, one entry per day |
| AnalyticsService.TrendsOf | src/services/analyticsService.ts:115-168 | Over a collection, the range query followed by the grouping and the day loop yields the day series of the range |
| AnalyticsService.Series | src/services/analyticsService.ts:127-166 | Grouping then filling gives the day series from the range's first day |
| AnalyticsService.FillDays | src/services/analyticsService.ts:150-166 | The loop over the days yields one entry per day in ascending order, taken from the groups or zero |
| AnalyticsService.TrendSeries | src/services/analyticsService.ts:150-166 | n entries; entry i is the count for the first day plus i |
| AnalyticsService.TrendBounded | src/services/analyticsService.ts:127-147 | In every bucket, resolved plus pending is at most created |
| AnalyticsService.EmptyDay | src/services/analyticsService.ts:156 | A day with no report gets zeros |
| AnalyticsService.TrendsCoverRange | src/services/analyticsService.ts:116-121 | Every ranged report falls on one of the series' days |
| AnalyticsService.GetDepartmentStats | src/services/analyticsService.ts:175-234 | The rows are the department table of the stored reports |
| AnalyticsService.DepartmentRows | src/services/analyticsService.ts:188-229 | Over the returned documents, the grouping loop, the row loop, the filter and the sort yield the department table |
| AnalyticsService.DepartmentTableFacts | src/services/analyticsService.ts:188-229 | Every row has resolved at most total, a positive total and is not 'Unassigned'; rows are sorted by total descending |
| AnalyticsService.DepartmentRowBounded | src/services/analyticsService.ts:188-212 | A listed department's row has resolved at most total and a positive total |
| AnalyticsService.ListedDepartmentHasReport | src/services/analyticsService.ts:188-229 | Every listed department is the assigned department of some report |
| AnalyticsService.AssignedDepartmentListed | src/services/analyticsService.ts:188-229 | Every real assigned department gets a row |
| Grouping.Tally | src/services/analyticsService.ts:188-212 | The loop yields the distinct keys in first-appearance order, with each key's total and flagged counts |
| Grouping.CountBy | src/services/analyticsService.ts:315-319 | The loop yields the distinct keys and each key's count |
| AnalyticsService.CompletionRate | src/services/analyticsService.ts:264-266 | Between 0 and 100.0 %; 0 when nothing is assigned or completed; 100.0 % when all are completed |
| AnalyticsService.GetUserPerformance | src/services/analyticsService.ts:236-287 | At most 10 rows, sorted by completion rate descending, each with some assignment, completed at most assigned and a rate in range (which rows are kept: `AssignedStaffListed`, `CutPerformerRanksLower`) |
| AnalyticsService.ActivePerformers | src/services/analyticsService.ts:246-280 | Every stored staff member with at least one report assigned by id has a row; every row has some assignment, completed at most assigned and a rate from 0 to 100.0% |
| AnalyticsService.StaffRowsKept | src/services/analyticsService.ts:246-280 | Mapping the staff to rows and filtering on an assignment keeps every staff member who has one |
| AnalyticsService.AssignedStaffListed | src/services/analyticsService.ts:246-282 | A staff member named by some report's `assignedTo` has a row among the active performers, and in the table whenever at most ten members are active |
| AnalyticsService.AssignedRowCounts | src/services/analyticsService.ts:247-250 | A report assigned to a user gives that user's row at least one assignment |
| AnalyticsService.ActiveListedWhenFew | src/services/analyticsService.ts:279-282 | With at most ten active members, sorting and `slice(0, 10)` drop none of them |
| AnalyticsService.CutPerformerRanksLower | src/services/analyticsService.ts:279-282 | An active member left out of the table implies the table is full, and every listed row has a rate at least as high |
| AnalyticsService.PerformanceRowsBounded | src/services/analyticsService.ts:279-282 | Filtering, sorting and truncating keep the row bounds |
| AnalyticsService.UnassignedStaffNotListed | src/services/analyticsService.ts:247-282 | A user no report names as assignee gets no row |
| AnalyticsService.IdleStaff | src/services/analyticsService.ts:246-250 | Such a user's row counts no assigned reports |
| AnalyticsService.CategoryTrend | src/services/analyticsService.ts:327-332 | With a previous count, the rounded percentage change; without one, 100 when there are reports now, else 0 |
| AnalyticsService.CategoryTrendExamples | src/services/analyticsService.ts:327-332 | 5 against 0 gives 100, 0 against 0 gives 0, equal counts give 0, none now gives -100, double gives 100 |
| AnalyticsService.CategoryTrendSign | src/services/analyticsService.ts:327-332 | Growth gives a trend of at least 0, no change gives 0, and a fall gives a trend between -100 and 0 |
| AnalyticsService.GetCategoryStats | src/services/analyticsService.ts:289-345 | The rows are the category table of the reports at now |
| AnalyticsService.CategoryRows | src/services/analyticsService.ts:327-338 | The row loop gives, for each category of the current period in order, the row built from its current and previous counts |
| AnalyticsService.CategoriesPartitionCurrent | src/services/analyticsService.ts:315-319 | The category counts add up to the number of reports in the current window |
| AnalyticsService.CategoryTableFacts | src/services/analyticsService.ts:327-340 | At most 8 rows, sorted by count descending, each with a positive count |
| ExportService.ExportQueryExactly | src/services/exportService.ts:33-61 | A report is exported exactly when it is dated and matches every filter; the result is newest first |
| ExportService.ExportedAreStored | src/services/exportService.ts:33-61 | Every exported document is stored |
| ExportService.NoCriteriaSelectsAll | src/services/exportService.ts:33-59 | Absent or 'all' filters and no dates impose nothing |
| ExportService.UserNames | src/services/exportService.ts:67-72 | The lookup has exactly the user ids |
| ExportService.NamesLookup | src/services/exportService.ts:67-72 | The loop builds the id-to-name lookup |
| ExportService.ReduceNames | src/services/exportService.ts:69-73 | The loop over the user documents leaves the left fold of `acc[id] = fullName` over them |
| ExportService.NamesFromDocs | src/services/exportService.ts:68-73 | Folding over every user document gives the map from each stored id to its full name |
| ExportService.AssigneeName | src/services/exportService.ts:83 | Never empty; anything but 'Unassigned' is the looked-up name of the assignee id |
| ExportService.ToExportRecord | src/services/exportService.ts:75-89 | The id, rating and feedback are kept; each text column is the stored value or its default ('No Title', '', 'Uncategorized', 'Unknown', 'MEDIUM', 'Unassigned', 'No Location'); the assignee is the looked-up name; the dates are formatted, with 'Unknown' for a missing creation date and a resolved date exactly when one is stored; every text column except the description is non-empty |
| ExportService.GetReportsForExport | src/services/exportService.ts:28-96 | One record per matching report, in query order |
| ExportService.NameAssigneeExportsUnassigned | src/services/exportService.ts:83 | An assignee stored as a name that is no user id is exported as 'Unassigned' |
| ExportService.IdAssigneeExportsName | src/services/exportService.ts:83 | An assignee stored as a user id is exported as that user's name |
| ExportService.GetEmployees | src/services/exportService.ts:99-114 | Every option is a stored ADMIN or EMPLOYEE user with its full name and its department, or 'Unassigned' when that is missing or empty |
| ExportService.StaffOptionListed | src/services/exportService.ts:101-114 | Every stored ADMIN or EMPLOYEE, active or not, has its option in the list |
| ExportService.StaffOptionsAscending | src/services/exportService.ts:101-107 | The options come in the query's ascending id order, so no id is listed twice |
| ExportService.DistinctValues | src/services/exportService.ts:121-157 | The loop over the reports yields the distinct non-empty values, sorted |
| ExportService.GetCategories | src/services/exportService.ts:121-138 | The distinct non-empty categories, sorted ascending |
| ExportService.GetDepartments | src/services/exportService.ts:140-157 | The distinct non-empty departments, sorted ascending |
| ExportService.OptionListExactly | src/services/exportService.ts:121-157 | Strictly increasing, and a value is listed exactly when some report has it and it is non-empty |
| ExportService.EscapeQuotes | src/services/exportService.ts:171-172 | Escaping never shortens the text |
| ExportService.Quote | src/services/exportService.ts:171-172 | The field starts and ends with a double quote |
| ExportService.QuoteRoundTrip | src/services/exportService.ts:171-172 | Removing the outer quotes and un-doubling gives the text back (section 2, rule 7 of RFC 4180) |
| ExportService.RatingText | src/services/exportService.ts:181 | Empty exactly when there is no rating or it is 0 |
| ExportService.Row | src/services/exportService.ts:169-183 | 13 fields; the raw columns are the record's values; resolved-at empty exactly when absent; rating empty exactly when absent or 0 |
| ExportService.RowReadsBack | src/services/exportService.ts:171-182 | The quoted title, description, location and feedback read back to the record's values |
| ExportService.CsvLines | src/services/exportService.ts:163-188 | The header line, then one line per record in input order |
| ExportService.CsvSplitsIntoRows | src/services/exportService.ts:185-188 | When no row contains a newline, splitting the file at newlines gives back exactly those lines |
| ExportService.HeaderIsOneLine | src/services/exportService.ts:163-167 | The header contains no newline |
| UserService.FirestoreToUser | src/services/userService.ts:166-186 | id, email, name, type, municipality, department and phone are the stored ones; active unless stored false; skills and assigned reports default to [], workload to 0; the maximum is the stored one unless missing or zero, then 5; a missing creation time is `now` |
| UserService.GetAllUsers | src/services/userService.ts:19-38 | The dated user documents, newest first, read one by one |
| UserService.ListedUserIsDated | src/services/userService.ts:21-24 | Every listed user is stored and dated |
| UserService.DatedUserIsListed | src/services/userService.ts:21-24 | Every dated user is listed |
| UserService.GetUsersByType | src/services/userService.ts:41-61 | The users of the type, by full name |
| UserService.UsersByTypeSound | src/services/userService.ts:43-47 | Every returned user is stored and of the type |
| UserService.UsersByTypeComplete | src/services/userService.ts:43-47 | Every stored user of the type is returned |
| UserService.UsersByTypeSorted | src/services/userService.ts:43-47 | The result is sorted by full name |
| UserService.TypeDocIsOfType | src/services/userService.ts:43-47 | Every document the query returns is of the type |
| UserService.TypeDocListed | src/services/userService.ts:43-47 | Every document of the type is returned by the query |
| UserService.GetUserById | src/services/userService.ts:64-81 | A user is returned exactly when the id exists, and it is that stored document read through `FirestoreToUser` |
| UserService.Merge | src/services/userService.ts:84-95 | Each given field replaces the stored one, the other fields stay, and the update time is set |
| UserService.MergeFacts | src/services/userService.ts:84-95 | An empty update only touches the time, and applying the same update twice is applying it once |
| UserService.UpdateUser | src/services/userService.ts:84-95 | An existing user is merged with the update; a missing one fails with nothing written |
| UserService.DeleteActivateInverse | src/services/userService.ts:98-123 | Deactivating then activating (and back) is activating (deactivating) alone; the user then reads as inactive (active) |
| UserService.DeleteUser | src/services/userService.ts:98-109 | Only the active flag (false) and the update time change; the document stays |
| UserService.ActivateUser | src/services/userService.ts:112-123 | Only the active flag (true) and the update time change |
| UserService.Stats | src/services/userService.ts:126-146 | The total is the number of users; the per-type and active/inactive counts are counts; active plus inactive is the total |
| UserService.TypeCountsSumToTotal | src/services/userService.ts:132-136 | The type counts add to at most the total, and exactly to it when every type is one of the three |
| UserService.GetUserStats | src/services/userService.ts:126-146 | The statistics of all users |
| UserService.SearchUsers | src/services/userService.ts:153-158 | Exactly the users whose name, email or department contains the term ignoring case, or whose phone contains it |
| UserService.SearchUsersFacts | src/services/userService.ts:153-158 | The result keeps the order of the list, and an empty term keeps everyone |
| UserService.SearchAllUsers | src/services/userService.ts:149-162 | The search over all users |
| UserService.UserTypeColor | src/services/userService.ts:197-204 | A colour exactly for the three user types |
| UserService.UserTypeIcon | src/services/userService.ts:206-213 | An icon exactly for the three user types |
| UserService.TablesDistinguishTypes | src/services/userService.ts:197-213 | Different user types get different colours and icons |
| UserModal.FormOf | src/components/users/UserModal.tsx:36-47 | The form shows the user's fields, with both password fields empty |
| UserModal.EmailShapeExamples | src/components/users/UserModal.tsx:70 | 'a@b.c' and 'mail: x@y.z' match the email pattern; 'a@b' and 'a @b.c' do not |
| UserModal.ValidationErrors | src/components/users/UserModal.tsx:66-86 | Errors only for the five form fields, each with a non-empty message |
| UserModal.ValidExactly | src/components/users/UserModal.tsx:66-86 | No errors exactly when the email is non-empty and shaped, the name and type are set, and on creation the password has at least 6 characters and equals the confirmation |
| UserModal.ValidationMessages | src/components/users/UserModal.tsx:69-83 | Each failing check puts its own message on its field |
| UserModal.PasswordRules | src/components/users/UserModal.tsx:74-81 | A mismatch is flagged even with an empty password; editing never checks passwords |
| UserModal.ToggleSkill | src/components/users/UserModal.tsx:144-151 | The skill's membership flips, the other skills stay, and a duplicate-free list stays duplicate-free |
| UserModal.ToggleTwice | src/components/users/UserModal.tsx:144-151 | Two toggles restore membership, and restore the list when the skill was absent |
| UserModal.ClearError | src/components/users/UserModal.tsx:153-159 | Only that field's error is cleared |
| UserModal.SetField | src/components/users/UserModal.tsx:153-155 | Setting a text field leaves skills, workload and municipality alone |
| UserModal.WorkloadInput | src/components/users/UserModal.tsx:272 | A parsed non-zero number is kept and anything else becomes 5, so the value is never 0 |
| UserModal.PayloadOf | src/components/users/UserModal.tsx:96-119 | Editing gives the edit payload; both payloads carry name, type, skills and workload; only creation carries email and password |
| UserModal.EditPayloadIgnoresCredentials | src/components/users/UserModal.tsx:99-106 | The edit payload does not depend on email or passwords |
| UserModal.SaveErrors | src/components/users/UserModal.tsx:126-138 | One error: email for the two email codes, password for the weak-password code, general otherwise |
| UserModal.CollectErrors | src/components/users/UserModal.tsx:66-84 | The step-by-step error record is the validation errors |
| UserModal.Dialog.constructor | src/components/users/UserModal.tsx:33-64 | Open, with the user's form or the blank form, and no errors |
| UserModal.Dialog.ValidateForm | src/components/users/UserModal.tsx:66-87 | The errors are set, and the form is valid exactly when there are none |
| UserModal.Dialog.HandleSubmit | src/components/users/UserModal.tsx:89-142 | An invalid form sends nothing; a valid one sends its payload, then closes on success or shows the mapped error on failure (on create, a registration error; for an edit, `UsersClient.Screen.SubmitEdit` shows the save never fails here) |
| UserModal.Dialog.HandleSkillToggle | src/components/users/UserModal.tsx:144-151 | The form's skills are toggled |
| UserModal.Dialog.HandleChange | src/components/users/UserModal.tsx:153-159 | The field is set and only its error is cleared |
| UserModal.Dialog.HandleWorkloadChange | src/components/users/UserModal.tsx:272 | The workload is set from the input or to 5 |
| UsersClient.StagesAreFilters | src/app/dashboard/users/UsersClient.tsx:31-57 | Each stage is a filter of the previous stage |
| UsersClient.VisibleIsOneFilter | src/app/dashboard/users/UsersClient.tsx:31-57 | The three stages are one filter, an order-preserving subsequence |
| UsersClient.VisibleExactly | src/app/dashboard/users/UsersClient.tsx:35-54 | A user is shown exactly when the term matches (or is empty), the type matches (or is 'ALL') and the status matches (or is 'ALL') |
| UsersClient.NoCriteriaShowsAll | src/app/dashboard/users/UsersClient.tsx:31-57 | No criteria show the users as loaded |
| UsersClient.StatusesPartition | src/app/dashboard/users/UsersClient.tsx:50-54 | 'ACTIVE' and 'INACTIVE' split the list before the status stage |
| UsersClient.UpdateOf | src/app/dashboard/users/UsersClient.tsx:93 | The update carries the edit payload's fields and no active flag |
| UsersClient.SoftDeleteFacts | src/app/dashboard/users/UsersClient.tsx:137-139 | After a delete the user is still there, now inactive, and the others are unchanged |
| UsersClient.Screen.constructor | src/app/dashboard/users/UsersClient.tsx:14-23 | Empty lists, no statistics, loading, dialog closed, no criteria |
| UsersClient.Screen.FilterEffect | src/app/dashboard/users/UsersClient.tsx:31-57 | The shown list is refiltered and nothing else changes |
| UsersClient.Screen.LoadUsers | src/app/dashboard/users/UsersClient.tsx:59-77 | All users and their statistics are loaded, and the list is refiltered |
| UsersClient.Screen.SetSearchTerm | src/app/dashboard/users/UsersClient.tsx:21 | The term changes and the list is refiltered |
| UsersClient.Screen.SetFilterType | src/app/dashboard/users/UsersClient.tsx:22 | The type changes and the list is refiltered |
| UsersClient.Screen.SetFilterStatus | src/app/dashboard/users/UsersClient.tsx:23 | The status changes and the list is refiltered |
| UsersClient.Screen.OpenDialog | src/app/dashboard/users/UsersClient.tsx:79-87 | The dialog opens for the user, or for a new one |
| UsersClient.Screen.HandleSaveEdit | src/app/dashboard/users/UsersClient.tsx:89-111 | `handleSaveUser` alone: an existing user is merged, the dialog closes and the reload leaves the store's users, their statistics and the refiltered list; a missing user fails, caught with only an alert, with the lists, statistics and dialog unchanged; the criteria never change |
| UsersClient.Screen.CloseAndReload | src/app/dashboard/users/UsersClient.tsx:104-106 | The dialog is closed, no user is edited, and the screen shows the store's users, their statistics and the refiltered list; the criteria stay |
| UsersClient.Screen.CloseDialog | src/app/dashboard/users/UsersClient.tsx:347-350 | The dialog is closed and no user is being edited; the lists and criteria stay |
| UsersClient.Screen.SubmitEdit | src/components/users/UserModal.tsx:89-125 | The dialog's submit of an edit through `handleSaveUser`: an invalid form writes nothing and shows its errors; a valid one closes the dialog, clears the edited user and shows no save error even when the update failed; the update is written exactly when the form is valid and the user exists, and then the reload leaves the store's users, their statistics and the refiltered list; otherwise the lists and statistics stay; the criteria never change |
| UsersClient.Screen.SetLoaded | src/app/dashboard/users/UsersClient.tsx:69-75 | The users and statistics are the loaded ones and loading is off; the dialog and the criteria stay |
| UsersClient.Screen.HandleToggleActive | src/app/dashboard/users/UsersClient.tsx:113-130 | Unconfirmed does nothing; confirmed flips the stored active flag and the reload leaves the store's users, their statistics and the refiltered list; a missing user fails with the lists and statistics unchanged; the dialog and criteria never change |
| UsersClient.Screen.HandleDeleteUser | src/app/dashboard/users/UsersClient.tsx:132-144 | Confirmed deactivates the user, keeping the document, and the reload leaves the store's users, their statistics and the refiltered list; unconfirmed or for a missing user the lists and statistics stay; the dialog and criteria never change |
| AssignmentsClient.MyReports | src/app/dashboard/assignments/AssignmentsClient.tsx:49-51 | Exactly the reports assigned to the uid, in order |
| AssignmentsClient.AssignedByNameShownOnlyToThatName | src/app/dashboard/assignments/AssignmentsClient.tsx:50 | A report assigned by name is kept only when the name equals the uid |
| AssignmentsClient.VisibleIsOneFilter | src/app/dashboard/assignments/AssignmentsClient.tsx:68-92 | The three stages are one filter, an order-preserving subsequence holding exactly the reports that pass every test |
| AssignmentsClient.NoCriteriaShowsAll | src/app/dashboard/assignments/AssignmentsClient.tsx:68-92 | No term and 'all' twice show all reports |
| AssignmentsClient.StatsOf | src/app/dashboard/assignments/AssignmentsClient.tsx:117-127 | The total and the three bucket counts |
| AssignmentsClient.CountersDisjoint | src/app/dashboard/assignments/AssignmentsClient.tsx:117-127 | The buckets add to at most the total, and exactly to it when no report is rejected or has an unknown status |
| AssignmentsClient.RejectedCountsNowhere | src/app/dashboard/assignments/AssignmentsClient.tsx:119-126 | A rejected report is in no bucket |
| AssignmentsClient.Screen.constructor | src/app/dashboard/assignments/AssignmentsClient.tsx:28-34 | Empty lists, loading, no criteria |
| AssignmentsClient.Screen.FilterEffect | src/app/dashboard/assignments/AssignmentsClient.tsx:68-92 | The shown list is refiltered and nothing else changes |
| AssignmentsClient.Screen.Fetch | src/app/dashboard/assignments/AssignmentsClient.tsx:38-65 | The user's assigned reports are loaded and filtered |
| AssignmentsClient.Screen.SetLoaded | src/app/dashboard/assignments/AssignmentsClient.tsx:54-60 | The reports and the shown list are the assigned ones and loading is off; the criteria stay |
| AssignmentsClient.Screen.SetCriteria | src/app/dashboard/assignments/AssignmentsClient.tsx:316-348 | The search term, status and priority setters: the criteria change and the list is refiltered; the counters stay |
| ReportsClient.RemoveId | src/app/dashboard/reports/ReportsClient.tsx:58 | Every report with the id goes, and the others stay in order |
| ReportsClient.RemoveAbsentId | src/app/dashboard/reports/ReportsClient.tsx:58 | An absent id leaves the list unchanged |
| ReportsClient.RemoveIdIdempotent | src/app/dashboard/reports/ReportsClient.tsx:58 | Removing twice is removing once |
| ReportsClient.SummaryOf | src/app/dashboard/reports/ReportsClient.tsx:193-211 | The total, and the in-progress, critical and resolved counts, each at most the total |
| ReportsClient.NarrowerThanAssignments | src/app/dashboard/reports/ReportsClient.tsx:198-210 | Compared with the assignments screen, this screen leaves 'ASSIGNED' out of in progress and 'closed' out of resolved |
| ReportsClient.Screen.constructor | src/app/dashboard/reports/ReportsClient.tsx:14-18 | No reports, loading |
| ReportsClient.Screen.Fetch | src/app/dashboard/reports/ReportsClient.tsx:22-42 | All reports are loaded |
| ReportsClient.Screen.HandleDeleteReport | src/app/dashboard/reports/ReportsClient.tsx:54-60 | Only on an admin's row; when confirmed, the id is removed from the list on screen and no document is touched |
| DashboardService.CalculateRevenue | src/services/dashboardService.ts:120-128 | The revenue is at least the report fees |
| DashboardService.RevenuePerReport | src/services/dashboardService.ts:120-128 | One more report adds 15, plus 500 when it is in progress or 'ASSIGNED' |
| DashboardService.RevenuePerUser | src/services/dashboardService.ts:120-128 | One more resident adds 25, and any other user adds nothing |
| DashboardService.CreatorName | src/services/dashboardService.ts:89-98 | The creator's non-empty name, or 'Unknown User' when there is no creator, no such user, an empty name or the lookup fails |
| DashboardService.GetRecentActivity | src/services/dashboardService.ts:75-117 | The loop yields one entry per recent report, in query order |
| DashboardService.RecentDocsFacts | src/services/dashboardService.ts:77-81 | At most 5 stored, dated reports, newest first |
| DashboardService.ActivityFields | src/services/dashboardService.ts:104-110 | An entry carries its report's id and creation time |
| DashboardService.RecentActivityFacts | src/services/dashboardService.ts:77-110 | At most 5 entries, newest first, each for a stored report with that creation time |
| DashboardService.GetQuickActions | src/services/dashboardService.ts:130-161 | Four entries with distinct ids |
| DashboardService.GetDashboardStats | src/services/dashboardService.ts:41-73 | Residents, reports and active projects are counted, the revenue is charged over exactly those counts, active projects are at most the reports, and there are at most 5 activity entries |
| DashboardPage.FormatTimeAgo | src/app/dashboard/page.tsx:121-132 | 'Just now' exactly below one hour, future times included; whole hours up to 23 as 'h ago'; whole days as 'd ago' |
| DashboardPage.HoursLabelReadsBack | src/app/dashboard/page.tsx:127-128 | An hours label reads back as the whole hours elapsed, between 1 and 23 |
| DashboardPage.DaysLabelReadsBack | src/app/dashboard/page.tsx:129-131 | A days label reads back as the whole days elapsed, at least 1 |
| DashboardPage.TimeAgoExamples | src/app/dashboard/page.tsx:121-132 | 47 hours is '1d ago', just under 5 hours is '4h ago', and a future time is 'Just now' |
| DashboardPage.TrendOf | src/app/dashboard/page.tsx:60-75 | Shown exactly when there is a change; green exactly when the change is positive, so 0 counts as a fall; the sign is dropped from the magnitude |
| DashboardPage.OnlyRevenueFalls | src/app/dashboard/page.tsx:205-234 | Of the four cards, only revenue shows a fall, of 2 % |
| DashboardPage.Page.constructor | src/app/dashboard/page.tsx:91-93 | No statistics, loading, no error |
| DashboardPage.Page.Render | src/app/dashboard/page.tsx:138-200 | Loading wins over an error, and an error over the statistics; cards exactly when loaded without error and with statistics |
| DashboardPage.Page.LoadDashboardData | src/app/dashboard/page.tsx:100-112 | A failure sets the error and keeps the old statistics; success clears the error and shows statistics that describe the store |
| Sidebar.FilteredNavigation | src/components/layout/sidebar.tsx:68-70 | Exactly the allowed entries, in table order |
| Sidebar.NoUserNoItems | src/components/layout/sidebar.tsx:68-70 | No user, or none with a type, sees nothing |
| Sidebar.AdminSeesAll | src/components/layout/sidebar.tsx:19-56 | An administrator sees all six entries |
| Sidebar.EmployeeSeesThree | src/components/layout/sidebar.tsx:19-56 | An employee sees exactly Overview, Assignments and Analytics |
| Sidebar.ResidentSeesNothing | src/components/layout/sidebar.tsx:19-56 | A resident sees nothing |
| Sidebar.AdminOnlyItems | src/components/layout/sidebar.tsx:27-55 | A non-administrator never sees Reports, Users or Settings |
| Sidebar.AtMostOneActive | src/components/layout/sidebar.tsx:126 | The links are distinct, so at most one entry is highlighted |

## Left out

- Transport: every read and write is one step on the in-memory store. The real-time subscription, the concurrent `Promise.all` fan-out and network failures are not modelled. Where a screen reacts to a failure, the failure is a parameter.
- Swallowed errors: several functions catch a failed read and return an empty result. They are modelled without that failure path:
  - the analytics functions, which return zeros or `[]` (src/services/analyticsService.ts:99-108, 169-172, 230-233, 283-286, 341-344);
  - the same catches also handle an error the data triggers: a resolved or closed report with `resolvedAt` but no `createdAt` throws at `report.createdAt.toDate()` in `getOverview`, `getDepartmentStats` and `getUserPerformance` (src/services/analyticsService.ts:80, 217, 254), so the source shows zeros or `[]` for the whole screen. The model leaves these averages out as floating point (see below), has no such failing step, and still computes the full overview, department table and performance table;
  - `getRecentActivity` (src/services/dashboardService.ts:114-117);
  - `getEmployees`, `getCategories` and `getDepartments` of the export (src/services/exportService.ts:115-118, 134-137, 153-156).
- Concurrency: two staff members writing the same report at once are not modelled. Each operation is a sequence of separate writes.
- Authentication, routing and the quick-action navigation (`handleQuickAction`, `router.push`, `router.refresh`) are left out. So are the view and edit row handlers of the reports screen, which only navigate or log.
- `updateReport` (src/services/reportService.ts:88-99) is not modelled. No core screen calls it.
- The create-user branch of the users screen's `handleSaveUser` (src/app/dashboard/users/UsersClient.tsx:95-101) calls the authentication service, so it is not modelled. The user dialog's create path is modelled by `UserModal.Dialog.HandleSubmit`: the password checks, the create payload, and a registration failure mapped through `UserModal.SaveErrors`. In the source a create registers the user twice: once in the dialog (src/components/users/UserModal.tsx:121) and again through `onSave` (src/app/dashboard/users/UsersClient.tsx:97). The model does not capture the second registration.
- The users, assignments and reports screens' error messages are not modelled. Their loading flags are modelled only as the final state, not the transient `true`.
- Floating point is left out:
  - the average resolution times in fractional days and their `Math.round(x*10)/10` (src/services/analyticsService.ts:79-96, 216-223, 253-262);
  - chart heights.
  - Percentages and rates are integers in tenths, exactly rounded.
- Wall clock and locale: `now` is a parameter. `formatDate` of the export is a function parameter. Currency formatting is left out. A day is a UTC day.
- `DashboardPage.FormatTimeAgo`: the millisecond difference is divided exactly, so floating-point rounding of very large differences is not modelled.
- Case-insensitive search folds ASCII letters only. String order is by code point, not by UTF-16 code unit.
- `UserModal.ValidExactly`: the password length counts code points, not UTF-16 code units.
- Eleven fields that `firestoreToReport` copies (src/services/reportService.ts:272-289) are not part of `Report`: `aiSuggestedType`, `previousPriority`, `priorityAutoApplied`, `priorityAppliedReason`, `mlProcessingCompletedAt`, `textAnalysis`, `issueTypeAutoApplied`, `issueTypeAppliedReason`, `previousIssueType`, `mlProcessingError` and `processingError`. They are ML bookkeeping, and no modelled operation reads them.
- The optional timestamps `lastActiveAt` of an employee (src/services/employeeService.ts:53) and `lastLoginAt` of a user (src/services/userService.ts:183), and the user's `profilePictureUrl` (src/services/userService.ts:181), are not part of the records. No modelled operation reads them.
- User documents are taken to always hold `email`, `fullName` and `userType` as strings. The source reads them without defaults.
- The HTML "PDF" export and the file download (src/services/exportService.ts:195-275) are browser I/O.
- `ExportService.CsvSplitsIntoRows`: the CSV joins lines with `\n`, as the source does, not with the CRLF of section 2, rule 1 of RFC 4180. The raw columns are not escaped, so the split property holds only when no row contains a newline.
- `AnalyticsService.GetOverview`: its contract states bounds. The exact counts are `Seqs.Count` expressions over the ranged reports. The staff count covers every ADMIN and EMPLOYEE document, inactive ones included, as the source's query does.
- `AnalyticsService.CategoryTrendSign`: growth is stated as a trend of at least 0, not above 0, because a small relative growth rounds to 0 (1001 against 1000).
- Key order of the statistics objects: `Grouping` lists keys in first-insertion order. JavaScript's `Object.keys`, `Object.values` and `Object.entries` list integer-like keys (such as a department or category named `"7"`) first, in ascending numeric order. The model does not capture that order. It decides the order of rows with equal counts after the stable sorts of `getDepartmentStats` and `getCategoryStats` (src/services/analyticsService.ts:227-229, 340), and which rows survive `slice(0, 8)` among ties. Every other stated property of those tables holds under either order.
- `UserService.getDepartments` and `UserService.getSkills` return constant tables and are not modelled.
