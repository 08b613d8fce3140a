/**
 * The user store's operations: listing, lookup, updates, the soft delete and
 * reactivation, the statistics, the search and the type colour and icon
 * tables.
 */
module UserService {
  import opened Wrappers
  import Text
  import Seqs
  import opened Js
  import opened ReportTypes
  import opened UserTypes
  import opened Firestore

  const DEFAULT_MAX_WORKLOAD := 5

  /**
   * `firestoreToUser`: only a stored `false` makes a user inactive; missing
   * lists become [], a missing or zero workload 0, a missing or zero
   * capacity 5; a missing `createdAt` becomes the client clock `now`.
   */
  function FirestoreToUser(s: Snapshot<UserDoc>, now: Time): (u: User)
    ensures u.id == s.id && u.email == s.data.email && u.fullName == s.data.fullName && u.userType == s.data.userType
    ensures u.municipalityId == s.data.municipalityId && u.department == s.data.department && u.phoneNumber == s.data.phoneNumber
    ensures u.isActive <==> s.data.isActive != Some(false)
    ensures u.skills == s.data.skills.GetOr([]) && u.assignedReports == s.data.assignedReports.GetOr([])
    ensures u.currentWorkload == s.data.currentWorkload.GetOr(0)
    ensures u.maxWorkload != 0
    ensures u.maxWorkload == if s.data.maxWorkload.None? || s.data.maxWorkload.value == 0 then DEFAULT_MAX_WORKLOAD else s.data.maxWorkload.value
    ensures u.createdAt == s.data.createdAt.GetOr(now)
  {
    User(s.id, s.data.email, s.data.fullName, s.data.userType, s.data.municipalityId, s.data.phoneNumber,
         s.data.department, s.data.isActive != Some(false), s.data.createdAt.GetOr(now), OrEmpty(s.data.skills),
         OrInt(s.data.currentWorkload, 0), OrInt(s.data.maxWorkload, DEFAULT_MAX_WORKLOAD),
         OrEmpty(s.data.assignedReports))
  }

  function UserOf(now: Time): Snapshot<UserDoc> -> User {
    (s: Snapshot<UserDoc>) => FirestoreToUser(s, now)
  }

  function ToUsers(snaps: seq<Snapshot<UserDoc>>, now: Time): seq<User> {
    Seqs.Map(snaps, UserOf(now))
  }

  /** The documents `getAllUsers` reads: `orderBy('createdAt', 'desc')`, which skips users without `createdAt`. */
  function AllUserDocs(users: map<string, UserDoc>): seq<Snapshot<UserDoc>> {
    UsersNewestFirst(Docs(users))
  }

  /** `getAllUsers` */
  method GetAllUsers(db: Database, now: Time) returns (result: seq<User>)
    ensures result == ToUsers(AllUserDocs(db.users), now)
  {
    result := ReadUsers(AllUserDocs(db.users), now);
  }

  /** The query's documents turned into users, one by one. */
  method ReadUsers(snaps: seq<Snapshot<UserDoc>>, now: Time) returns (result: seq<User>)
    ensures result == ToUsers(snaps, now)
  {
    result := [];
    var i := 0;
    while i < |snaps|
      invariant 0 <= i <= |snaps|
      invariant result == ToUsers(snaps[..i], now)
    {
      var f := UserOf(now);
      result := result + [f(snaps[i])];
      Seqs.MapSnoc(snaps, i, f);
      i := i + 1;
    }
    assert snaps[..|snaps|] == snaps;
  }

  /** Every user the `getAllUsers` query returns has a `createdAt` and is a document of the collection. */
  lemma ListedUserIsDated(users: map<string, UserDoc>, s: Snapshot<UserDoc>)
    requires s in AllUserDocs(users)
    ensures s.data.createdAt.Some? && s.id in users && users[s.id] == s.data
  {
    var docs := Docs(users);
    assert s in multiset(AllUserDocs(users));
    assert s in Seqs.Filter(docs, UserHasCreatedAt);
    var i :| 0 <= i < |docs| && docs[i] == s;
  }

  /** Every user with a `createdAt` is returned by `getAllUsers`. */
  lemma DatedUserIsListed(users: map<string, UserDoc>, id: string)
    requires id in users && users[id].createdAt.Some?
    ensures Snapshot(id, users[id]) in AllUserDocs(users)
  {
    DocsComplete(users, id);
    assert Snapshot(id, users[id]) in Seqs.Filter(Docs(users), UserHasCreatedAt);
    assert Snapshot(id, users[id]) in multiset(AllUserDocs(users));
  }

  function HasUserType(t: string): Snapshot<UserDoc> -> bool {
    (s: Snapshot<UserDoc>) => s.data.userType == t
  }

  /** The documents `getUsersByType(t)` reads: `where('userType', '==', t)`, `orderBy('fullName', 'asc')`. */
  function TypeDocs(users: map<string, UserDoc>, t: string): seq<Snapshot<UserDoc>> {
    UsersByFullName(Seqs.Filter(Docs(users), HasUserType(t)))
  }

  /** `getUsersByType` */
  method GetUsersByType(db: Database, t: string, now: Time) returns (result: seq<User>)
    ensures result == ToUsers(TypeDocs(db.users, t), now)
  {
    result := ReadUsers(TypeDocs(db.users, t), now);
  }

  /** `getUsersByType(t)` lists only users of type `t`, each with its stored document. */
  lemma UsersByTypeSound(users: map<string, UserDoc>, t: string, now: Time)
    ensures forall u :: u in ToUsers(TypeDocs(users, t), now) ==> u.userType == t && u.id in users
  {
    var snaps := TypeDocs(users, t);
    var us := ToUsers(snaps, now);
    forall u | u in us ensures u.userType == t && u.id in users {
      var i :| 0 <= i < |us| && us[i] == u;
      TypeDocIsOfType(users, t, snaps[i]);
    }
  }

  /** Every user of type `t` is listed by `getUsersByType(t)`. */
  lemma UsersByTypeComplete(users: map<string, UserDoc>, t: string, id: string, now: Time)
    requires id in users && users[id].userType == t
    ensures FirestoreToUser(Snapshot(id, users[id]), now) in ToUsers(TypeDocs(users, t), now)
  {
    var snaps := TypeDocs(users, t);
    TypeDocListed(users, t, id);
    var i :| 0 <= i < |snaps| && snaps[i] == Snapshot(id, users[id]);
    assert ToUsers(snaps, now)[i] == UserOf(now)(snaps[i]);
  }

  /** `getUsersByType(t)` lists users in ascending `fullName` order. */
  lemma UsersByTypeSorted(users: map<string, UserDoc>, t: string, now: Time)
    ensures forall i, j :: 0 <= i < j < |ToUsers(TypeDocs(users, t), now)| ==>
      Text.StrLe(ToUsers(TypeDocs(users, t), now)[i].fullName, ToUsers(TypeDocs(users, t), now)[j].fullName)
  {
    var snaps := TypeDocs(users, t);
    var us := ToUsers(snaps, now);
    forall i, j | 0 <= i < j < |us| ensures Text.StrLe(us[i].fullName, us[j].fullName) {
      assert ByFullName(snaps[i], snaps[j]);
    }
  }

  lemma TypeDocIsOfType(users: map<string, UserDoc>, t: string, s: Snapshot<UserDoc>)
    requires s in TypeDocs(users, t)
    ensures s.data.userType == t && s.id in users
  {
    var docs := Docs(users);
    assert s in multiset(TypeDocs(users, t));
    assert s in Seqs.Filter(docs, HasUserType(t));
    var i :| 0 <= i < |docs| && docs[i] == s;
  }

  lemma TypeDocListed(users: map<string, UserDoc>, t: string, id: string)
    requires id in users && users[id].userType == t
    ensures Snapshot(id, users[id]) in TypeDocs(users, t)
  {
    DocsComplete(users, id);
    assert Snapshot(id, users[id]) in Seqs.Filter(Docs(users), HasUserType(t));
    assert Snapshot(id, users[id]) in multiset(TypeDocs(users, t));
  }

  /** `getUserById` */
  function GetUserById(users: map<string, UserDoc>, id: string, now: Time): (r: Option<User>)
    ensures r.Some? <==> id in users
    ensures r.Some? ==> r.value.id == id && r.value.email == users[id].email
    ensures r.Some? ==> r.value == FirestoreToUser(Snapshot(id, users[id]), now)
  {
    if id in users then Some(FirestoreToUser(Snapshot(id, users[id]), now)) else None
  }

  // ---------------------------------------------------------------------------
  // Writes

  /** `{ ...updateData, updatedAt }`: each field the update carries replaces the stored one. */
  function Merge(d: UserDoc, dto: UpdateUserDTO, t: Time): (r: UserDoc)
    ensures r.fullName == dto.fullName.GetOr(d.fullName) && r.userType == dto.userType.GetOr(d.userType)
    ensures r.phoneNumber == (if dto.phoneNumber.Some? then dto.phoneNumber else d.phoneNumber)
    ensures r.department == (if dto.department.Some? then dto.department else d.department)
    ensures r.isActive == (if dto.isActive.Some? then dto.isActive else d.isActive)
    ensures r.skills == (if dto.skills.Some? then dto.skills else d.skills)
    ensures r.maxWorkload == (if dto.maxWorkload.Some? then dto.maxWorkload else d.maxWorkload)
    ensures r.updatedAt == Some(t)
    ensures r.email == d.email && r.createdAt == d.createdAt && r.currentWorkload == d.currentWorkload
    ensures r.municipalityId == d.municipalityId && r.assignedReports == d.assignedReports
  {
    d.(fullName := dto.fullName.GetOr(d.fullName),
       userType := dto.userType.GetOr(d.userType),
       phoneNumber := if dto.phoneNumber.Some? then dto.phoneNumber else d.phoneNumber,
       department := if dto.department.Some? then dto.department else d.department,
       isActive := if dto.isActive.Some? then dto.isActive else d.isActive,
       skills := if dto.skills.Some? then dto.skills else d.skills,
       maxWorkload := if dto.maxWorkload.Some? then dto.maxWorkload else d.maxWorkload,
       updatedAt := Some(t))
  }

  const EMPTY_UPDATE := UpdateUserDTO(None, None, None, None, None, None, None)

  /** An update carrying no field only moves `updatedAt`; applying the same update twice is applying it once. */
  lemma MergeFacts(d: UserDoc, dto: UpdateUserDTO, t1: Time, t2: Time)
    ensures Merge(d, EMPTY_UPDATE, t1) == d.(updatedAt := Some(t1))
    ensures Merge(Merge(d, dto, t1), dto, t2) == Merge(d, dto, t2)
  {
  }

  /** `updateUser`: fails, writing nothing, when the document does not exist. */
  method UpdateUser(db: Database, id: string, dto: UpdateUserDTO) returns (r: Outcome<Error>)
    requires db.Valid()
    modifies db
    ensures db.Valid()
    ensures id in old(db.users) ==>
      r == Pass && db.clock == old(db.clock) + 1 && db.users == old(db.users)[id := Merge(old(db.users[id]), dto, db.clock)]
    ensures id !in old(db.users) ==>
      r == Fail(NoDocumentToUpdate(id)) && db.clock == old(db.clock) && db.users == old(db.users)
    ensures db.reports == old(db.reports) && db.comments == old(db.comments) && db.history == old(db.history)
  {
    if id !in db.users {
      return Fail(NoDocumentToUpdate(id));
    }
    var t := db.ServerTimestamp();
    db.PutUser(id, Merge(db.users[id], dto, t));
    r := Pass;
  }

  /** The fields `deleteUser` (false) and `activateUser` (true) write. */
  function WithActive(d: UserDoc, active: bool, t: Time): UserDoc {
    d.(isActive := Some(active), updatedAt := Some(t))
  }

  /**
   * Soft delete and reactivation are inverses on `isActive` and touch
   * nothing else but `updatedAt`: deleting and then reactivating an active
   * user gives back the stored document up to `updatedAt`, and the user reads
   * back as active again.
   */
  lemma DeleteActivateInverse(d: UserDoc, t1: Time, t2: Time, now: Time)
    ensures WithActive(WithActive(d, false, t1), true, t2) == WithActive(d, true, t2)
    ensures WithActive(WithActive(d, true, t1), false, t2) == WithActive(d, false, t2)
    ensures d.isActive == Some(true) ==> WithActive(WithActive(d, false, t1), true, t2).(updatedAt := d.updatedAt) == d
    ensures !FirestoreToUser(Snapshot("", WithActive(d, false, t1)), now).isActive
    ensures FirestoreToUser(Snapshot("", WithActive(d, true, t1)), now).isActive
  {
  }

  /** `deleteUser` (active = false) and `activateUser` (active = true). */
  method SetActive(db: Database, id: string, active: bool) returns (r: Outcome<Error>)
    requires db.Valid()
    modifies db
    ensures db.Valid()
    ensures id in old(db.users) ==>
      r == Pass && db.clock == old(db.clock) + 1 && db.users == old(db.users)[id := WithActive(old(db.users[id]), active, db.clock)]
    ensures id !in old(db.users) ==>
      r == Fail(NoDocumentToUpdate(id)) && db.clock == old(db.clock) && db.users == old(db.users)
    ensures db.reports == old(db.reports) && db.comments == old(db.comments) && db.history == old(db.history)
  {
    if id !in db.users {
      return Fail(NoDocumentToUpdate(id));
    }
    var t := db.ServerTimestamp();
    db.PutUser(id, WithActive(db.users[id], active, t));
    r := Pass;
  }

  /** `deleteUser`: a soft delete, the user document stays. */
  method DeleteUser(db: Database, id: string) returns (r: Outcome<Error>)
    requires db.Valid()
    modifies db
    ensures db.Valid()
    ensures id in old(db.users) ==>
      r == Pass && db.clock == old(db.clock) + 1 && db.users == old(db.users)[id := WithActive(old(db.users[id]), false, db.clock)]
    ensures id !in old(db.users) ==>
      r == Fail(NoDocumentToUpdate(id)) && db.clock == old(db.clock) && db.users == old(db.users)
    ensures db.users.Keys == old(db.users.Keys)
    ensures db.reports == old(db.reports) && db.comments == old(db.comments) && db.history == old(db.history)
  {
    r := SetActive(db, id, false);
  }

  /** `activateUser` */
  method ActivateUser(db: Database, id: string) returns (r: Outcome<Error>)
    requires db.Valid()
    modifies db
    ensures db.Valid()
    ensures id in old(db.users) ==>
      r == Pass && db.clock == old(db.clock) + 1 && db.users == old(db.users)[id := WithActive(old(db.users[id]), true, db.clock)]
    ensures id !in old(db.users) ==>
      r == Fail(NoDocumentToUpdate(id)) && db.clock == old(db.clock) && db.users == old(db.users)
    ensures db.reports == old(db.reports) && db.comments == old(db.comments) && db.history == old(db.history)
  {
    r := SetActive(db, id, true);
  }

  // ---------------------------------------------------------------------------
  // getUserStats

  function OfType(t: string): User -> bool {
    (u: User) => u.userType == t
  }

  predicate IsActiveUser(u: User) { u.isActive }
  predicate IsInactiveUser(u: User) { !u.isActive }
  predicate AnyUser(u: User) { true }
  predicate AdminOrEmployee(u: User) { u.userType == ADMIN || u.userType == EMPLOYEE }
  predicate HasKnownType(u: User) { IsUserType(u.userType) }

  /** The statistics of a list of users. */
  function Stats(users: seq<User>): (s: UserStats)
    ensures s.total == |users|
    ensures s.admins == Seqs.Count(users, OfType(ADMIN)) && s.employees == Seqs.Count(users, OfType(EMPLOYEE))
    ensures s.residents == Seqs.Count(users, OfType(RESIDENT))
    ensures s.active == Seqs.Count(users, IsActiveUser) && s.inactive == Seqs.Count(users, IsInactiveUser)
    ensures s.active + s.inactive == s.total
  {
    Seqs.CountDisjoint(users, IsActiveUser, IsInactiveUser, AnyUser);
    Seqs.CountAll(users, AnyUser);
    UserStats(|users|, Seqs.Count(users, OfType(ADMIN)), Seqs.Count(users, OfType(EMPLOYEE)),
              Seqs.Count(users, OfType(RESIDENT)), Seqs.Count(users, IsActiveUser), Seqs.Count(users, IsInactiveUser))
  }

  /**
   * The three type counts add up to the total exactly when every user has
   * one of the three types; a user with another type makes them fall short.
   */
  lemma TypeCountsSumToTotal(users: seq<User>)
    ensures Stats(users).admins + Stats(users).employees + Stats(users).residents <= Stats(users).total
    ensures Stats(users).admins + Stats(users).employees + Stats(users).residents == Stats(users).total
        <==> forall i :: 0 <= i < |users| ==> IsUserType(users[i].userType)
  {
    Seqs.CountDisjoint(users, OfType(ADMIN), OfType(EMPLOYEE), AdminOrEmployee);
    Seqs.CountDisjoint(users, AdminOrEmployee, OfType(RESIDENT), HasKnownType);
    Seqs.CountAll(users, HasKnownType);
  }

  /** `getUserStats`: the statistics of what `getAllUsers` returns. */
  method GetUserStats(db: Database, now: Time) returns (stats: UserStats)
    ensures stats == Stats(ToUsers(AllUserDocs(db.users), now))
  {
    var users := GetAllUsers(db, now);
    stats := Stats(users);
  }

  // ---------------------------------------------------------------------------
  // searchUsers

  /**
   * The search predicate: name, e-mail or department contains the term
   * ignoring case, or the phone number contains it exactly.
   */
  predicate UserMatches(u: User, term: string) {
    Text.ContainsIgnoringCase(u.fullName, term) ||
    Text.ContainsIgnoringCase(u.email, term) ||
    (u.department.Some? && Text.ContainsIgnoringCase(u.department.value, term)) ||
    (u.phoneNumber.Some? && Text.Contains(u.phoneNumber.value, term))
  }

  function Matching(term: string): User -> bool {
    (u: User) => UserMatches(u, term)
  }

  /** `searchUsers` over the list `getAllUsers` returns. */
  function SearchUsers(users: seq<User>, term: string): (r: seq<User>)
    ensures forall u :: u in r <==> u in users && UserMatches(u, term)
  {
    Seqs.Filter(users, Matching(term))
  }

  /** The search keeps an order-preserving subsequence, and an empty term keeps every user. */
  lemma SearchUsersFacts(users: seq<User>, term: string)
    ensures Seqs.IsSubsequence(SearchUsers(users, term), users)
    ensures term == "" ==> SearchUsers(users, term) == users
  {
    Seqs.FilterIsSubsequence(users, Matching(term));
    if term == "" {
      forall i | 0 <= i < |users| ensures Matching(term)(users[i]) {
        Text.ContainsIgnoringCaseEmpty(users[i].fullName);
      }
      Seqs.CountAll(users, Matching(term));
      Seqs.FilterAll(users, Matching(term));
    }
  }

  /** `searchUsers` */
  method SearchAllUsers(db: Database, term: string, now: Time) returns (result: seq<User>)
    ensures result == SearchUsers(ToUsers(AllUserDocs(db.users), now), term)
  {
    var users := GetAllUsers(db, now);
    result := SearchUsers(users, term);
  }

  // ---------------------------------------------------------------------------
  // Colour and icon tables

  /** `getUserTypeColor`: `colors[userType]`, undefined for a string outside the table. */
  function UserTypeColor(t: string): (r: Option<string>)
    ensures r.Some? <==> IsUserType(t)
    ensures r.Some? ==> |r.value| > 0
  {
    if t == ADMIN then Some("bg-purple-100 text-purple-800")
    else if t == EMPLOYEE then Some("bg-blue-100 text-blue-800")
    else if t == RESIDENT then Some("bg-green-100 text-green-800")
    else None
  }

  /** `getUserTypeIcon` */
  function UserTypeIcon(t: string): (r: Option<string>)
    ensures r.Some? <==> IsUserType(t)
    ensures r.Some? ==> |r.value| == 1
  {
    if t == ADMIN then Some("\U{1F451}")
    else if t == EMPLOYEE then Some("\U{1F477}")
    else if t == RESIDENT then Some("\U{1F464}")
    else None
  }

  /** The three types get three different colours and three different icons. */
  lemma TablesDistinguishTypes(a: string, b: string)
    requires IsUserType(a) && IsUserType(b) && a != b
    ensures UserTypeColor(a) != UserTypeColor(b) && UserTypeIcon(a) != UserTypeIcon(b)
  {
  }
}
