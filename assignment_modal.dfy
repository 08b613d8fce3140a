/**
 * The assignment dialog: it loads the active employees, offers a department
 * list and a search, shows each employee's workload band, and assigns the
 * report to the selected employee.
 */
module AssignmentModal {
  import opened Wrappers
  import Text
  import Seqs
  import opened Js
  import opened ReportTypes
  import opened UserTypes
  import opened Firestore
  import opened EmployeeService
  import ReportService

  const ALL := "all"

  // ---------------------------------------------------------------------------
  // Department options

  /** `employees.map(emp => emp.department).filter(Boolean)`: the non-empty departments, in list order. */
  function TruthyDepartments(es: seq<Employee>): (r: seq<string>)
    ensures forall d :: d in r <==> d != "" && exists e :: e in es && e.department == Some(d)
    decreases |es|
  {
    if es == [] then []
    else
      assert forall e :: e in es <==> e == es[0] || e in es[1..];
      var rest := TruthyDepartments(es[1..]);
      if Truthy(es[0].department) then [es[0].department.value] + rest else rest
  }

  /** `['all', ...new Set(departments)]` */
  function DepartmentOptions(es: seq<Employee>): seq<string> {
    [ALL] + Seqs.Distinct(TruthyDepartments(es))
  }

  /**
   * The options are 'all' followed by each non-empty department exactly
   * once, in order of first appearance. They repeat an entry only when some
   * employee's department is literally 'all'.
   */
  lemma DepartmentOptionsFacts(es: seq<Employee>)
    ensures DepartmentOptions(es)[0] == ALL
    ensures forall d :: d in DepartmentOptions(es)[1..] <==> d != "" && exists e :: e in es && e.department == Some(d)
    ensures Seqs.NoDuplicates(DepartmentOptions(es)[1..])
    ensures forall i, j :: 1 <= i < j < |DepartmentOptions(es)| ==>
      Seqs.FirstIndex(TruthyDepartments(es), DepartmentOptions(es)[i]) < Seqs.FirstIndex(TruthyDepartments(es), DepartmentOptions(es)[j])
    ensures Seqs.NoDuplicates(DepartmentOptions(es)) <==> forall e :: e in es ==> e.department != Some(ALL)
  {
    var ds := TruthyDepartments(es);
    var opts := DepartmentOptions(es);
    assert opts[1..] == Seqs.Distinct(ds);
    Seqs.DistinctFirstAppearance(ds);
    forall i, j | 1 <= i < j < |opts|
      ensures Seqs.FirstIndex(ds, opts[i]) < Seqs.FirstIndex(ds, opts[j])
    {
      assert opts[i] == Seqs.Distinct(ds)[i - 1] && opts[j] == Seqs.Distinct(ds)[j - 1];
    }
    if forall e :: e in es ==> e.department != Some(ALL) {
      assert ALL !in opts[1..];
      forall i, j | 0 <= i < j < |opts| ensures opts[i] != opts[j] {
        if i > 0 {
          assert opts[i] == opts[1..][i - 1] && opts[j] == opts[1..][j - 1];
        } else {
          assert opts[j] in opts[1..];
        }
      }
    } else {
      var e :| e in es && e.department == Some(ALL);
      assert ALL in opts[1..];
      var k :| 0 <= k < |opts[1..]| && opts[1..][k] == ALL;
      assert opts[0] == opts[k + 1];
    }
  }

  // ---------------------------------------------------------------------------
  // Search and department filter

  /** The search predicate: name, e-mail or department contains the term, ignoring case. */
  predicate MatchesSearch(e: Employee, term: string) {
    Text.ContainsIgnoringCase(e.fullName, term) ||
    Text.ContainsIgnoringCase(e.email, term) ||
    (e.department.Some? && Text.ContainsIgnoringCase(e.department.value, term))
  }

  function Searching(term: string): Employee -> bool {
    (e: Employee) => MatchesSearch(e, term)
  }

  /** Both stages as one predicate: an empty term and 'all' keep everyone. */
  predicate Shown(e: Employee, term: string, d: string) {
    (term == "" || MatchesSearch(e, term)) && (d == ALL || e.department == Some(d))
  }

  function ShownBy(term: string, d: string): Employee -> bool {
    (e: Employee) => Shown(e, term, d)
  }

  /** The filter effect: the search when the term is non-empty, then the department unless it is 'all'. */
  function Filtered(es: seq<Employee>, term: string, d: string): seq<Employee> {
    var searched := if term != "" then Seqs.Filter(es, Searching(term)) else es;
    if d != ALL then Seqs.Filter(searched, InDepartment(d)) else searched
  }

  /**
   * The list shown is the employees that pass both stages, in the loaded
   * order: an order-preserving subsequence; an empty term with 'all' shows
   * every employee.
   */
  lemma FilteredIsOneFilter(es: seq<Employee>, term: string, d: string)
    ensures Filtered(es, term, d) == Seqs.Filter(es, ShownBy(term, d))
    ensures Seqs.IsSubsequence(Filtered(es, term, d), es)
    ensures term == "" && d == ALL ==> Filtered(es, term, d) == es
  {
    var searched := if term != "" then Seqs.Filter(es, Searching(term)) else es;
    var pass := (e: Employee) => true;
    var dept := if d != ALL then InDepartment(d) else pass;
    var search := if term != "" then Searching(term) else pass;
    Seqs.FilterAll(es, pass);
    Seqs.FilterAll(searched, pass);
    assert searched == Seqs.Filter(es, search);
    assert Filtered(es, term, d) == Seqs.Filter(searched, dept);
    Seqs.FilterFilter(es, search, dept, ShownBy(term, d));
    Seqs.FilterIsSubsequence(es, ShownBy(term, d));
  }

  /** Who is shown: with a non-empty term, exactly the employees the search matches; with a department, only exact matches. */
  lemma ShownExactly(es: seq<Employee>, term: string, d: string, e: Employee)
    ensures e in Filtered(es, term, d) <==>
      e in es && (term == "" || MatchesSearch(e, term)) && (d == ALL || e.department == Some(d))
  {
    FilteredIsOneFilter(es, term, d);
  }

  // ---------------------------------------------------------------------------
  // Workload bands

  /**
   * `(current / max) * 100 < k`, decided without division: for a positive
   * capacity it is `100 * current < k * max`; a negative capacity flips the
   * comparison; with a zero capacity the quotient is -Infinity (below
   * everything) for a negative workload and Infinity or NaN (below nothing)
   * otherwise.
   */
  predicate PercentBelow(current: int, max: int, k: int) {
    if max > 0 then 100 * current < k * max
    else if max < 0 then 100 * current > k * max
    else current < 0
  }

  /** `getWorkloadColor(getWorkloadPercentage(employee))` */
  function WorkloadColor(current: int, max: int): string {
    if PercentBelow(current, max, 60) then "bg-green-500"
    else if PercentBelow(current, max, 85) then "bg-yellow-500"
    else "bg-red-500"
  }

  /** `getWorkloadText(employee)` */
  function WorkloadText(current: int, max: int): string {
    if PercentBelow(current, max, 60) then "Light workload"
    else if PercentBelow(current, max, 85) then "Moderate workload"
    else "Heavy workload"
  }

  /** The rank of a band: 0 light, 1 moderate, 2 heavy. */
  function Rank(text: string): nat {
    if text == "Light workload" then 0 else if text == "Moderate workload" then 1 else 2
  }

  /** Colour and text use the same thresholds: green with light, yellow with moderate, red with heavy. */
  lemma ColorMatchesText(current: int, max: int)
    ensures WorkloadColor(current, max) == "bg-green-500" <==> WorkloadText(current, max) == "Light workload"
    ensures WorkloadColor(current, max) == "bg-yellow-500" <==> WorkloadText(current, max) == "Moderate workload"
    ensures WorkloadColor(current, max) == "bg-red-500" <==> WorkloadText(current, max) == "Heavy workload"
  {
  }

  /** For a positive capacity the bands are below 60 %, below 85 %, and the rest; 9 of 10 is heavy, 5 of 10 light, 7 of 10 moderate. */
  lemma WorkloadBands(current: int, max: int)
    requires max > 0
    ensures WorkloadText(current, max) == "Light workload" <==> 100 * current < 60 * max
    ensures WorkloadText(current, max) == "Moderate workload" <==> 60 * max <= 100 * current < 85 * max
    ensures WorkloadText(current, max) == "Heavy workload" <==> 85 * max <= 100 * current
    ensures WorkloadText(9, 10) == "Heavy workload" && WorkloadText(5, 10) == "Light workload"
    ensures WorkloadText(7, 10) == "Moderate workload"
  {
  }

  /** For a fixed positive capacity, more work never gives a lighter band. */
  lemma WorkloadMonotone(c1: int, c2: int, max: int)
    requires max > 0 && c1 <= c2
    ensures Rank(WorkloadText(c1, max)) <= Rank(WorkloadText(c2, max))
  {
    assert 100 * c1 <= 100 * c2;
  }

  // ---------------------------------------------------------------------------
  // The dialog's state

  /** The signed-in user as the details page holds it; the e-mail may be missing. */
  datatype SessionUser = SessionUser(uid: string, email: Option<string>, userType: string)

  /** `{ uid, email: user.email || "Unknown", userType }`, the actor `handleAssignReport` passes on. */
  function ActorOf(u: SessionUser): (a: ReportService.Actor)
    ensures a.uid == u.uid && a.userType == u.userType
    ensures a.email == (if Truthy(u.email) then u.email.value else "Unknown")
  {
    ReportService.Actor(u.uid, OrString(u.email, "Unknown"), u.userType)
  }

  /** The stored user is an EMPLOYEE whose flag is `true`. */
  predicate IsActiveEmployee(users: map<string, UserDoc>, id: string) {
    id in users && users[id].userType == EMPLOYEE && users[id].isActive == Some(true)
  }

  /**
   * The details page's `handleAssignReport`, which the dialog receives as
   * `onAssign`: `assignReport` on behalf of the signed-in user.
   */
  method OnAssign(db: Database, reportId: string, employeeId: string, user: SessionUser, notes: string, now: Time)
    returns (r: Outcome<Error>)
    requires db.Valid()
    modifies db
    ensures db.Valid()
    ensures r.Pass? <==> IsActiveEmployee(old(db.users), employeeId) && reportId in old(db.reports)
    ensures r.Pass? ==>
      reportId in db.reports && db.reports[reportId].assignedToId == Some(employeeId) &&
      db.reports[reportId].assignedTo == Some(old(db.users)[employeeId].fullName)
  {
    if IsActiveEmployee(db.users, employeeId) {
      ActiveEmployeeFound(db.users, employeeId, now);
    } else {
      NotActiveNotFound(db.users, employeeId, now);
    }
    r := ReportService.AssignReport(db, reportId, employeeId, ActorOf(user), notes, now);
  }

  class Dialog {
    var open: bool
    var employees: seq<Employee>
    var filteredEmployees: seq<Employee>
    var selectedEmployee: string
    var assignmentNotes: string
    var isLoading: bool
    var searchTerm: string
    var selectedDepartment: string
    var departments: seq<string>

    /** The filter effect has run for the current search, department and employees. */
    ghost predicate Valid()
      reads this
    {
      filteredEmployees == Filtered(employees, searchTerm, selectedDepartment) &&
      (departments == DepartmentOptions(employees) || (departments == [] && employees == []))
    }

    /** The initial state of an opened dialog. */
    constructor()
      ensures Valid() && open
      ensures employees == [] && filteredEmployees == [] && departments == []
      ensures selectedEmployee == "" && assignmentNotes == "" && searchTerm == "" && selectedDepartment == ALL
      ensures !isLoading
    {
      open := true;
      employees := [];
      filteredEmployees := [];
      selectedEmployee := "";
      assignmentNotes := "";
      isLoading := false;
      searchTerm := "";
      selectedDepartment := ALL;
      departments := [];
    }

    /**
     * `loadEmployees`, followed by the filter effect the new employee list
     * triggers.
     */
    method LoadEmployees(db: Database, now: Time)
      modifies this
      ensures Valid()
      ensures employees == ToEmployees(ActiveEmployeeDocs(db.users), now)
      ensures departments == DepartmentOptions(employees)
      ensures filteredEmployees == Filtered(employees, searchTerm, selectedDepartment)
      ensures searchTerm == old(searchTerm) && selectedDepartment == old(selectedDepartment)
      ensures selectedEmployee == old(selectedEmployee) && assignmentNotes == old(assignmentNotes)
      ensures open == old(open) && !isLoading
    {
      isLoading := true;
      var all := GetActiveEmployees(db, now);
      SetEmployees(all, DepartmentOptions(all));
      FilterEffect();
    }

    /** The state updates at the end of `loadEmployees`: the list, its departments, the unfiltered list, and loading off. */
    method SetEmployees(all: seq<Employee>, options: seq<string>)
      modifies this
      ensures employees == all && departments == options && filteredEmployees == all && !isLoading
      ensures searchTerm == old(searchTerm) && selectedDepartment == old(selectedDepartment)
      ensures selectedEmployee == old(selectedEmployee) && assignmentNotes == old(assignmentNotes) && open == old(open)
    {
      employees := all;
      departments := options;
      filteredEmployees := all;
      isLoading := false;
    }

    /** The effect on `[searchTerm, selectedDepartment, employees]`. */
    method FilterEffect()
      modifies this
      ensures filteredEmployees == Filtered(employees, searchTerm, selectedDepartment)
      ensures employees == old(employees) && departments == old(departments) && searchTerm == old(searchTerm)
      ensures selectedDepartment == old(selectedDepartment) && selectedEmployee == old(selectedEmployee)
      ensures assignmentNotes == old(assignmentNotes) && open == old(open) && isLoading == old(isLoading)
    {
      var filtered := employees;
      if searchTerm != "" {
        filtered := Seqs.Filter(filtered, Searching(searchTerm));
      }
      if selectedDepartment != ALL {
        filtered := Seqs.Filter(filtered, InDepartment(selectedDepartment));
      }
      filteredEmployees := filtered;
    }

    /** Typing in the search box. */
    method SetSearchTerm(term: string)
      requires Valid()
      modifies this
      ensures Valid() && searchTerm == term
      ensures filteredEmployees == Filtered(employees, term, selectedDepartment)
      ensures employees == old(employees) && departments == old(departments)
      ensures selectedDepartment == old(selectedDepartment) && selectedEmployee == old(selectedEmployee)
      ensures assignmentNotes == old(assignmentNotes) && open == old(open) && isLoading == old(isLoading)
    {
      searchTerm := term;
      FilterEffect();
    }

    /** Choosing a department. */
    method SetDepartment(d: string)
      requires Valid()
      modifies this
      ensures Valid() && selectedDepartment == d
      ensures filteredEmployees == Filtered(employees, searchTerm, d)
      ensures employees == old(employees) && departments == old(departments)
      ensures searchTerm == old(searchTerm) && selectedEmployee == old(selectedEmployee)
      ensures assignmentNotes == old(assignmentNotes) && open == old(open) && isLoading == old(isLoading)
    {
      selectedDepartment := d;
      FilterEffect();
    }

    /** Clicking an employee card. */
    method Select(id: string)
      requires Valid()
      modifies this
      ensures Valid() && selectedEmployee == id
      ensures employees == old(employees) && filteredEmployees == old(filteredEmployees) && departments == old(departments)
      ensures searchTerm == old(searchTerm) && selectedDepartment == old(selectedDepartment)
      ensures assignmentNotes == old(assignmentNotes) && open == old(open) && isLoading == old(isLoading)
    {
      selectedEmployee := id;
    }

    /** Typing in the notes box. */
    method SetNotes(notes: string)
      requires Valid()
      modifies this
      ensures Valid() && assignmentNotes == notes
      ensures employees == old(employees) && filteredEmployees == old(filteredEmployees) && departments == old(departments)
      ensures searchTerm == old(searchTerm) && selectedDepartment == old(selectedDepartment)
      ensures selectedEmployee == old(selectedEmployee) && open == old(open) && isLoading == old(isLoading)
    {
      assignmentNotes := notes;
    }

    method SetLoading(b: bool)
      requires Valid()
      modifies this
      ensures Valid() && isLoading == b
      ensures employees == old(employees) && filteredEmployees == old(filteredEmployees) && departments == old(departments)
      ensures searchTerm == old(searchTerm) && selectedDepartment == old(selectedDepartment)
      ensures selectedEmployee == old(selectedEmployee) && assignmentNotes == old(assignmentNotes) && open == old(open)
    {
      isLoading := b;
    }

    /** `onClose()` and the form reset after a successful assignment; the filter effect then shows everyone. */
    method CloseAndReset()
      requires Valid()
      modifies this
      ensures Valid() && !open
      ensures selectedEmployee == "" && assignmentNotes == "" && searchTerm == "" && selectedDepartment == ALL
      ensures filteredEmployees == employees
      ensures employees == old(employees) && departments == old(departments) && isLoading == old(isLoading)
    {
      open := false;
      selectedEmployee := "";
      assignmentNotes := "";
      searchTerm := "";
      selectedDepartment := ALL;
      ghost var es := employees;
      FilterEffect();
      assert Filtered(es, "", ALL) == es;
    }

    /**
     * `handleAssign`, with `onAssign` being the details page's
     * `handleAssignReport`. Without a selection nothing happens. Otherwise
     * the report is assigned; on success the dialog closes and its form is
     * reset (the filter effect then shows every employee again); on failure
     * the form is kept and the dialog stays open.
     */
    method HandleAssign(db: Database, reportId: string, user: SessionUser, now: Time)
      returns (r: Option<Outcome<Error>>)
      requires Valid() && db.Valid()
      modifies this, db
      ensures Valid() && db.Valid()
      ensures isLoading == (old(selectedEmployee) == "" && old(isLoading))
      ensures employees == old(employees) && departments == old(departments)
      ensures old(selectedEmployee) == "" ==>
        r.None? && db.users == old(db.users) && db.reports == old(db.reports) && db.clock == old(db.clock) &&
        db.comments == old(db.comments) && db.history == old(db.history) &&
        filteredEmployees == old(filteredEmployees) && open == old(open) &&
        selectedEmployee == old(selectedEmployee) && assignmentNotes == old(assignmentNotes) &&
        searchTerm == old(searchTerm) && selectedDepartment == old(selectedDepartment)
      ensures old(selectedEmployee) != "" ==>
        r.Some? &&
        (r.value.Pass? <==> IsActiveEmployee(old(db.users), old(selectedEmployee)) && reportId in old(db.reports))
      ensures r == Some(Pass) ==>
        !open && selectedEmployee == "" && assignmentNotes == "" && searchTerm == "" && selectedDepartment == ALL &&
        filteredEmployees == employees &&
        reportId in db.reports && db.reports[reportId].assignedToId == Some(old(selectedEmployee)) &&
        db.reports[reportId].assignedTo == Some(old(db.users)[old(selectedEmployee)].fullName)
      ensures r.Some? && r.value.Fail? ==>
        open == old(open) && filteredEmployees == old(filteredEmployees) &&
        selectedEmployee == old(selectedEmployee) && assignmentNotes == old(assignmentNotes) &&
        searchTerm == old(searchTerm) && selectedDepartment == old(selectedDepartment)
    {
      if selectedEmployee == "" {
        return None;
      }
      SetLoading(true);
      var outcome := OnAssign(db, reportId, selectedEmployee, user, assignmentNotes, now);
      if outcome.Pass? {
        CloseAndReset();
      }
      SetLoading(false);
      r := Some(outcome);
    }
  }
}
