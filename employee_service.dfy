/**
 * The active-employee directory: users of type EMPLOYEE whose document says
 * `isActive: true`, in ascending `fullName` order.
 */
module EmployeeService {
  import opened Wrappers
  import Text
  import Seqs
  import opened Js
  import opened ReportTypes
  import opened UserTypes
  import opened Firestore

  /** `Employee` */
  datatype Employee = Employee(
    id: string,
    email: string,
    fullName: string,
    userType: string,
    department: Option<string>,
    phoneNumber: Option<string>,
    isActive: bool,
    skills: seq<string>,
    currentWorkload: int,
    maxWorkload: int,
    createdAt: Time)

  const DEFAULT_MAX_WORKLOAD := 5

  /**
   * The record the fetchers push for a user document: a missing or empty list
   * of skills becomes [], a missing or zero workload 0, a missing or zero
   * capacity 5, and only a stored `false` makes the employee inactive.
   */
  function ToEmployee(s: Snapshot<UserDoc>, now: Time): (e: Employee)
    ensures e.id == s.id && e.email == s.data.email && e.fullName == s.data.fullName && e.userType == s.data.userType
    ensures e.department == s.data.department && e.phoneNumber == s.data.phoneNumber
    ensures e.isActive <==> s.data.isActive != Some(false)
    ensures e.skills == s.data.skills.GetOr([])
    ensures e.currentWorkload == s.data.currentWorkload.GetOr(0)
    ensures e.maxWorkload != 0
    ensures e.maxWorkload == if s.data.maxWorkload.None? || s.data.maxWorkload.value == 0 then DEFAULT_MAX_WORKLOAD else s.data.maxWorkload.value
    ensures e.createdAt == s.data.createdAt.GetOr(now)
  {
    Employee(s.id, s.data.email, s.data.fullName, s.data.userType, s.data.department, s.data.phoneNumber,
             s.data.isActive != Some(false), OrEmpty(s.data.skills), OrInt(s.data.currentWorkload, 0),
             OrInt(s.data.maxWorkload, DEFAULT_MAX_WORKLOAD), s.data.createdAt.GetOr(now))
  }

  function EmployeeOf(now: Time): Snapshot<UserDoc> -> Employee {
    s => ToEmployee(s, now)
  }

  /** `where('userType', '==', 'EMPLOYEE')` and `where('isActive', '==', true)`: a missing flag does not match. */
  predicate IsActiveEmployeeDoc(s: Snapshot<UserDoc>) {
    s.data.userType == EMPLOYEE && s.data.isActive == Some(true)
  }

  /** The same query with `where('department', '==', department)` added. */
  function InDepartmentDoc(department: string): Snapshot<UserDoc> -> bool {
    s => IsActiveEmployeeDoc(s) && s.data.department == Some(department)
  }

  /** The documents `getActiveEmployees` reads, in the order the query returns them. */
  function ActiveEmployeeDocs(users: map<string, UserDoc>): seq<Snapshot<UserDoc>> {
    UsersByFullName(Seqs.Filter(Docs(users), IsActiveEmployeeDoc))
  }

  function DepartmentDocs(users: map<string, UserDoc>, department: string): seq<Snapshot<UserDoc>> {
    UsersByFullName(Seqs.Filter(Docs(users), InDepartmentDoc(department)))
  }

  /** The records built from query results, one per document, in the same order. */
  function ToEmployees(snaps: seq<Snapshot<UserDoc>>, now: Time): seq<Employee> {
    Seqs.Map(snaps, EmployeeOf(now))
  }

  /** `getActiveEmployees` */
  method GetActiveEmployees(db: Database, now: Time) returns (employees: seq<Employee>)
    ensures employees == ToEmployees(ActiveEmployeeDocs(db.users), now)
  {
    employees := ReadEmployees(ActiveEmployeeDocs(db.users), now);
  }

  /** `getEmployeesByDepartment` */
  method GetEmployeesByDepartment(db: Database, department: string, now: Time) returns (employees: seq<Employee>)
    ensures employees == ToEmployees(DepartmentDocs(db.users, department), now)
  {
    employees := ReadEmployees(DepartmentDocs(db.users, department), now);
  }

  /** The query's documents turned into employee records, one by one. */
  method ReadEmployees(snaps: seq<Snapshot<UserDoc>>, now: Time) returns (employees: seq<Employee>)
    ensures employees == ToEmployees(snaps, now)
  {
    employees := [];
    var i := 0;
    while i < |snaps|
      invariant 0 <= i <= |snaps|
      invariant employees == ToEmployees(snaps[..i], now)
    {
      employees := employees + [EmployeeOf(now)(snaps[i])];
      Seqs.MapSnoc(snaps, i, EmployeeOf(now));
      i := i + 1;
    }
    assert snaps[..|snaps|] == snaps;
  }

  /** Every document the directory query returns is an active EMPLOYEE document of the collection. */
  lemma ActiveDocsAreActive(users: map<string, UserDoc>, s: Snapshot<UserDoc>)
    requires s in ActiveEmployeeDocs(users)
    ensures IsActiveEmployeeDoc(s) && s.id in users && users[s.id] == s.data
  {
    ByFullNameMembers(Seqs.Filter(Docs(users), IsActiveEmployeeDoc), s);
    DocStored(users, s);
  }

  /** Every active EMPLOYEE document is returned. */
  lemma ActiveDocsComplete(users: map<string, UserDoc>, id: string)
    requires id in users && IsActiveEmployeeDoc(Snapshot(id, users[id]))
    ensures Snapshot(id, users[id]) in ActiveEmployeeDocs(users)
  {
    DocsComplete(users, id);
    ByFullNameMembers(Seqs.Filter(Docs(users), IsActiveEmployeeDoc), Snapshot(id, users[id]));
  }

  /**
   * The directory holds exactly the active EMPLOYEE documents, in ascending
   * `fullName` order: an ADMIN, a RESIDENT and a user whose flag is missing
   * or false are not in it.
   */
  lemma ActiveEmployeesAreActiveEmployees(users: map<string, UserDoc>, now: Time)
    ensures forall e :: e in ToEmployees(ActiveEmployeeDocs(users), now) ==>
      e.userType == EMPLOYEE && e.isActive && e.id in users && users[e.id].isActive == Some(true)
    ensures forall id :: id in users && users[id].userType == EMPLOYEE && users[id].isActive == Some(true) ==>
      ToEmployee(Snapshot(id, users[id]), now) in ToEmployees(ActiveEmployeeDocs(users), now)
    ensures forall i, j :: 0 <= i < j < |ToEmployees(ActiveEmployeeDocs(users), now)| ==>
      Text.StrLe(ToEmployees(ActiveEmployeeDocs(users), now)[i].fullName, ToEmployees(ActiveEmployeeDocs(users), now)[j].fullName)
  {
    DirectoryIsActive(users, now);
    DirectoryIsComplete(users, now);
    DirectoryIsSorted(users, now);
  }

  lemma DirectoryIsActive(users: map<string, UserDoc>, now: Time)
    ensures forall e :: e in ToEmployees(ActiveEmployeeDocs(users), now) ==>
      e.userType == EMPLOYEE && e.isActive && e.id in users && users[e.id].isActive == Some(true)
  {
    var snaps := ActiveEmployeeDocs(users);
    var es := ToEmployees(snaps, now);
    forall e | e in es
      ensures e.userType == EMPLOYEE && e.isActive && e.id in users && users[e.id].isActive == Some(true)
    {
      var i :| 0 <= i < |es| && es[i] == e;
      ActiveDocsAreActive(users, snaps[i]);
    }
  }

  lemma DirectoryIsComplete(users: map<string, UserDoc>, now: Time)
    ensures forall id :: id in users && users[id].userType == EMPLOYEE && users[id].isActive == Some(true) ==>
      ToEmployee(Snapshot(id, users[id]), now) in ToEmployees(ActiveEmployeeDocs(users), now)
  {
    var snaps := ActiveEmployeeDocs(users);
    var es := ToEmployees(snaps, now);
    forall id | id in users && users[id].userType == EMPLOYEE && users[id].isActive == Some(true)
      ensures ToEmployee(Snapshot(id, users[id]), now) in es
    {
      ActiveDocsComplete(users, id);
      var i :| 0 <= i < |snaps| && snaps[i] == Snapshot(id, users[id]);
      EmployeeAt(snaps, i, now);
    }
  }

  lemma EmployeeAt(snaps: seq<Snapshot<UserDoc>>, i: nat, now: Time)
    requires i < |snaps|
    ensures ToEmployee(snaps[i], now) in ToEmployees(snaps, now)
  {
    assert ToEmployees(snaps, now)[i] == ToEmployee(snaps[i], now);
  }

  lemma DirectoryIsSorted(users: map<string, UserDoc>, now: Time)
    ensures forall i, j :: 0 <= i < j < |ToEmployees(ActiveEmployeeDocs(users), now)| ==>
      Text.StrLe(ToEmployees(ActiveEmployeeDocs(users), now)[i].fullName, ToEmployees(ActiveEmployeeDocs(users), now)[j].fullName)
  {
    var snaps := ActiveEmployeeDocs(users);
    var es := ToEmployees(snaps, now);
    forall i, j | 0 <= i < j < |es| ensures Text.StrLe(es[i].fullName, es[j].fullName) {
      assert ByFullName(snaps[i], snaps[j]);
    }
  }

  /**
   * `getEmployeesByDepartment(d)` returns exactly the active employees whose
   * department is `d`, in the order of the full directory.
   */
  lemma DepartmentIsFilterOfActive(users: map<string, UserDoc>, department: string, now: Time)
    ensures ToEmployees(DepartmentDocs(users, department), now) ==
            Seqs.Filter(ToEmployees(ActiveEmployeeDocs(users), now), InDepartment(department))
  {
    var docs := Docs(users);
    ComparatorsArePreorders();
    Seqs.FilterFilter(docs, IsActiveEmployeeDoc, DocInDepartment(department), InDepartmentDoc(department));
    Seqs.FilterSortBy(Seqs.Filter(docs, IsActiveEmployeeDoc), ByFullName, DocInDepartment(department));
    Seqs.MapFilter(ActiveEmployeeDocs(users), EmployeeOf(now), DocInDepartment(department), InDepartment(department));
  }

  function DocInDepartment(department: string): Snapshot<UserDoc> -> bool {
    (s: Snapshot<UserDoc>) => s.data.department == Some(department)
  }

  function InDepartment(department: string): Employee -> bool {
    (e: Employee) => e.department == Some(department)
  }

  /** `employees.find(emp => emp.id === id) || null`: the first employee with that id. */
  function FindById(employees: seq<Employee>, id: string): (r: Option<Employee>)
    ensures r.None? <==> forall e :: e in employees ==> e.id != id
    ensures r.Some? ==> exists i :: 0 <= i < |employees| && employees[i] == r.value && r.value.id == id &&
                                    forall k :: 0 <= k < i ==> employees[k].id != id
    decreases |employees|
  {
    if employees == [] then None
    else if employees[0].id == id then Some(employees[0])
    else
      var r := FindById(employees[1..], id);
      assert forall e :: e in employees ==> e == employees[0] || e in employees[1..];
      if r.Some? then
        var i :| 0 <= i < |employees[1..]| && employees[1..][i] == r.value && r.value.id == id &&
                 forall k :: 0 <= k < i ==> employees[1..][k].id != id;
        assert employees[i + 1] == r.value;
        assert forall k :: 1 <= k < i + 1 ==> employees[k] == employees[1..][k - 1];
        r
      else r
  }

  /** `getEmployeeById`: the active employee with that id, or none. */
  method GetEmployeeById(db: Database, id: string, now: Time) returns (employee: Option<Employee>)
    ensures employee == FindById(ToEmployees(ActiveEmployeeDocs(db.users), now), id)
  {
    var employees := GetActiveEmployees(db, now);
    employee := FindById(employees, id);
  }

  /** A user that is not an active EMPLOYEE is not found, even though its document exists. */
  lemma NotActiveNotFound(users: map<string, UserDoc>, id: string, now: Time)
    requires id !in users || users[id].userType != EMPLOYEE || users[id].isActive != Some(true)
    ensures FindById(ToEmployees(ActiveEmployeeDocs(users), now), id).None?
  {
    var snaps := ActiveEmployeeDocs(users);
    var es := ToEmployees(snaps, now);
    forall e | e in es ensures e.id != id {
      var i :| 0 <= i < |es| && es[i] == e;
      ActiveDocsAreActive(users, snaps[i]);
    }
  }

  /** An active employee is found, with the record built from their document. */
  lemma ActiveEmployeeFound(users: map<string, UserDoc>, id: string, now: Time)
    requires id in users && users[id].userType == EMPLOYEE && users[id].isActive == Some(true)
    ensures FindById(ToEmployees(ActiveEmployeeDocs(users), now), id) == Some(ToEmployee(Snapshot(id, users[id]), now))
  {
    var snaps := ActiveEmployeeDocs(users);
    var es := ToEmployees(snaps, now);
    ActiveDocsComplete(users, id);
    var k :| 0 <= k < |snaps| && snaps[k] == Snapshot(id, users[id]);
    assert es[k].id == id;
    var r := FindById(es, id);
    var i :| 0 <= i < |es| && es[i] == r.value && r.value.id == id;
    ActiveDocsAreActive(users, snaps[i]);
  }
}
