/**
 * The user management screen: the loaded users and statistics, the
 * three-stage filter (search, role, status), and the handlers that edit,
 * deactivate, reactivate and soft-delete a user.
 */
module UsersClient {
  import opened Wrappers
  import Seqs
  import opened ReportTypes
  import opened UserTypes
  import opened Firestore
  import UserService
  import UserModal

  const ALL_TYPES := "ALL"

  /** `filterStatus` */
  datatype StatusFilter = AllStatuses | ActiveOnly | InactiveOnly

  function Pass(): User -> bool {
    (u: User) => true
  }

  function SearchTest(term: string): User -> bool {
    if term != "" then UserService.Matching(term) else Pass()
  }

  function TypeTest(filterType: string): User -> bool {
    if filterType != ALL_TYPES then UserService.OfType(filterType) else Pass()
  }

  /** `filterStatus === 'ACTIVE' ? user.isActive : !user.isActive`, or nothing for 'ALL'. */
  function StatusTest(st: StatusFilter): User -> bool {
    match st
    case AllStatuses => Pass()
    case ActiveOnly => UserService.IsActiveUser
    case InactiveOnly => UserService.IsInactiveUser
  }

  /** The three stages as one test. */
  predicate Shown(u: User, term: string, filterType: string, st: StatusFilter) {
    SearchTest(term)(u) && TypeTest(filterType)(u) && StatusTest(st)(u)
  }

  function ShownBy(term: string, filterType: string, st: StatusFilter): User -> bool {
    (u: User) => Shown(u, term, filterType, st)
  }

  /** The list after the search and role stages, before the status stage. */
  function Searched(users: seq<User>, term: string, filterType: string): seq<User> {
    var filtered := if term != "" then Seqs.Filter(users, UserService.Matching(term)) else users;
    if filterType != ALL_TYPES then Seqs.Filter(filtered, UserService.OfType(filterType)) else filtered
  }

  /** What the filter effect shows. */
  function Visible(users: seq<User>, term: string, filterType: string, st: StatusFilter): seq<User> {
    var filtered := Searched(users, term, filterType);
    if st != AllStatuses then Seqs.Filter(filtered, StatusTest(st)) else filtered
  }

  /** Each stage that is switched off passes every user. */
  lemma StagesAreFilters(users: seq<User>, term: string, filterType: string, st: StatusFilter)
    ensures Searched(users, term, filterType) == Seqs.Filter(Seqs.Filter(users, SearchTest(term)), TypeTest(filterType))
    ensures Visible(users, term, filterType, st) == Seqs.Filter(Searched(users, term, filterType), StatusTest(st))
  {
    var searched := if term != "" then Seqs.Filter(users, UserService.Matching(term)) else users;
    Seqs.FilterAll(users, Pass());
    Seqs.FilterAll(searched, Pass());
    Seqs.FilterAll(Searched(users, term, filterType), Pass());
  }

  /** The shown list is the one filter of all three tests, an order-preserving subsequence of the users. */
  lemma VisibleIsOneFilter(users: seq<User>, term: string, filterType: string, st: StatusFilter)
    ensures Visible(users, term, filterType, st) == Seqs.Filter(users, ShownBy(term, filterType, st))
    ensures Seqs.IsSubsequence(Visible(users, term, filterType, st), users)
  {
    StagesAreFilters(users, term, filterType, st);
    var st1 := (u: User) => SearchTest(term)(u) && TypeTest(filterType)(u);
    Seqs.FilterFilter(users, SearchTest(term), TypeTest(filterType), st1);
    Seqs.FilterFilter(users, st1, StatusTest(st), ShownBy(term, filterType, st));
    Seqs.FilterIsSubsequence(users, ShownBy(term, filterType, st));
  }

  /**
   * Who is shown: with a term, the users the search matches; with a role,
   * the users of that role; with a status, the active or the inactive ones.
   */
  lemma VisibleExactly(users: seq<User>, term: string, filterType: string, st: StatusFilter, u: User)
    ensures u in Visible(users, term, filterType, st) <==>
      u in users &&
      (term != "" ==> UserService.UserMatches(u, term)) &&
      (filterType != ALL_TYPES ==> u.userType == filterType) &&
      (st == ActiveOnly ==> u.isActive) && (st == InactiveOnly ==> !u.isActive)
  {
    VisibleIsOneFilter(users, term, filterType, st);
  }

  /** With no term, 'ALL' roles and 'ALL' statuses the list is shown as loaded. */
  lemma NoCriteriaShowsAll(users: seq<User>)
    ensures Visible(users, "", ALL_TYPES, AllStatuses) == users
  {
  }

  /** ACTIVE and INACTIVE split the list the first two stages leave: every user lands in exactly one. */
  lemma StatusesPartition(users: seq<User>, term: string, filterType: string)
    ensures |Visible(users, term, filterType, ActiveOnly)| + |Visible(users, term, filterType, InactiveOnly)|
         == |Visible(users, term, filterType, AllStatuses)|
    ensures forall u :: u in Visible(users, term, filterType, AllStatuses) ==>
      (u in Visible(users, term, filterType, ActiveOnly) <==> u !in Visible(users, term, filterType, InactiveOnly))
  {
    var pre := Searched(users, term, filterType);
    Seqs.CountDisjoint(pre, UserService.IsActiveUser, UserService.IsInactiveUser, UserService.AnyUser);
    Seqs.CountAll(pre, UserService.AnyUser);
    Seqs.FilterAll(pre, UserService.AnyUser);
  }

  /** The update an edit payload makes: every field of the dialog, `isActive` untouched. */
  function UpdateOf(p: UserModal.Payload): (dto: UpdateUserDTO)
    requires p.EditPayload?
    ensures dto.isActive.None?
    ensures dto.fullName == Some(p.fullName) && dto.userType == Some(p.userType) && dto.skills == Some(p.skills)
  {
    UpdateUserDTO(Some(p.fullName), Some(p.userType), Some(p.phoneNumber), Some(p.department), None,
                  Some(p.skills), Some(p.maxWorkload))
  }

  /**
   * What a soft delete leaves: the same document ids, every other user's
   * document as it was, and the deleted user reading back as inactive.
   */
  lemma SoftDeleteFacts(users: map<string, UserDoc>, id: string, t: Time, now: Time)
    requires id in users
    ensures var after := users[id := UserService.WithActive(users[id], false, t)];
      after.Keys == users.Keys &&
      !UserService.FirestoreToUser(Snapshot(id, after[id]), now).isActive &&
      forall other :: other in users && other != id ==> after[other] == users[other]
  {
  }

  class Screen {
    var users: seq<User>
    var filteredUsers: seq<User>
    var stats: Option<UserStats>
    var loading: bool
    var isModalOpen: bool
    var editingUser: Option<User>
    var searchTerm: string
    var filterType: string
    var filterStatus: StatusFilter

    /** The filter effect has run for the current users and criteria. */
    ghost predicate Valid()
      reads this
    {
      filteredUsers == Visible(users, searchTerm, filterType, filterStatus)
    }

    /** The state `loadUsers` leaves: the store's users and their statistics, refiltered, loading off. */
    ghost predicate ShowsStore(stored: map<string, UserDoc>, now: Time)
      reads this
    {
      Valid() && users == UserService.ToUsers(UserService.AllUserDocs(stored), now) &&
      stats == Some(UserService.Stats(users)) && !loading
    }

    constructor()
      ensures Valid() && users == [] && filteredUsers == [] && stats == None && loading
      ensures !isModalOpen && editingUser == None
      ensures searchTerm == "" && filterType == ALL_TYPES && filterStatus == AllStatuses
    {
      users := [];
      filteredUsers := [];
      stats := None;
      loading := true;
      isModalOpen := false;
      editingUser := None;
      searchTerm := "";
      filterType := ALL_TYPES;
      filterStatus := AllStatuses;
    }

    /** The effect on `[users, searchTerm, filterType, filterStatus]`. */
    method FilterEffect()
      modifies this
      ensures Valid()
      ensures users == old(users) && stats == old(stats) && loading == old(loading)
      ensures isModalOpen == old(isModalOpen) && editingUser == old(editingUser)
      ensures searchTerm == old(searchTerm) && filterType == old(filterType) && filterStatus == old(filterStatus)
    {
      var filtered := users;
      if searchTerm != "" {
        filtered := Seqs.Filter(filtered, UserService.Matching(searchTerm));
      }
      if filterType != ALL_TYPES {
        filtered := Seqs.Filter(filtered, UserService.OfType(filterType));
      }
      if filterStatus != AllStatuses {
        filtered := Seqs.Filter(filtered, StatusTest(filterStatus));
      }
      filteredUsers := filtered;
    }

    /** `loadUsers`, then the filter effect the new list triggers. */
    method LoadUsers(db: Database, now: Time)
      modifies this
      ensures Valid()
      ensures users == UserService.ToUsers(UserService.AllUserDocs(db.users), now)
      ensures stats == Some(UserService.Stats(users)) && !loading
      ensures ShowsStore(db.users, now)
      ensures isModalOpen == old(isModalOpen) && editingUser == old(editingUser)
      ensures searchTerm == old(searchTerm) && filterType == old(filterType) && filterStatus == old(filterStatus)
    {
      var usersData := UserService.GetAllUsers(db, now);
      var statsData := UserService.GetUserStats(db, now);
      SetLoaded(usersData, statsData);
      FilterEffect();
    }

    /** The state updates at the end of `loadUsers`: the list, its statistics, and loading off. */
    method SetLoaded(usersData: seq<User>, statsData: UserStats)
      modifies this
      ensures users == usersData && stats == Some(statsData) && !loading
      ensures isModalOpen == old(isModalOpen) && editingUser == old(editingUser)
      ensures searchTerm == old(searchTerm) && filterType == old(filterType) && filterStatus == old(filterStatus)
    {
      users := usersData;
      stats := Some(statsData);
      loading := false;
    }

    method SetSearchTerm(term: string)
      modifies this
      ensures Valid() && searchTerm == term
      ensures users == old(users) && filterType == old(filterType) && filterStatus == old(filterStatus)
      ensures stats == old(stats) && isModalOpen == old(isModalOpen) && editingUser == old(editingUser)
    {
      searchTerm := term;
      FilterEffect();
    }

    method SetFilterType(t: string)
      modifies this
      ensures Valid() && filterType == t
      ensures users == old(users) && searchTerm == old(searchTerm) && filterStatus == old(filterStatus)
      ensures stats == old(stats) && isModalOpen == old(isModalOpen) && editingUser == old(editingUser)
    {
      filterType := t;
      FilterEffect();
    }

    method SetFilterStatus(st: StatusFilter)
      modifies this
      ensures Valid() && filterStatus == st
      ensures users == old(users) && searchTerm == old(searchTerm) && filterType == old(filterType)
      ensures stats == old(stats) && isModalOpen == old(isModalOpen) && editingUser == old(editingUser)
    {
      filterStatus := st;
      FilterEffect();
    }

    /** `handleCreateUser` (`user` = None) and `handleEditUser`: open the dialog on a user or on nothing. */
    method OpenDialog(user: Option<User>)
      modifies this
      ensures isModalOpen && editingUser == user
      ensures users == old(users) && filteredUsers == old(filteredUsers) && stats == old(stats)
      ensures searchTerm == old(searchTerm) && filterType == old(filterType) && filterStatus == old(filterStatus)
    {
      editingUser := user;
      isModalOpen := true;
    }

    /**
     * `handleSaveUser` for an edited user: update the document; on success
     * close the dialog and reload; on failure leave everything as it is.
     */
    method HandleSaveEdit(db: Database, p: UserModal.Payload, now: Time) returns (r: Outcome<Error>)
      requires db.Valid() && editingUser.Some? && p.EditPayload?
      modifies this, db
      ensures db.Valid()
      ensures var id := old(editingUser).value.id;
        (id in old(db.users) ==>
          r == Pass && db.users == old(db.users)[id := UserService.Merge(old(db.users)[id], UpdateOf(p), db.clock)] &&
          !isModalOpen && editingUser == None && ShowsStore(db.users, now)) &&
        (id !in old(db.users) ==>
          r.Fail? && db.users == old(db.users) && isModalOpen == old(isModalOpen) && editingUser == old(editingUser) &&
          users == old(users) && filteredUsers == old(filteredUsers) && stats == old(stats))
      ensures db.reports == old(db.reports) && db.comments == old(db.comments) && db.history == old(db.history)
      ensures searchTerm == old(searchTerm) && filterType == old(filterType) && filterStatus == old(filterStatus)
    {
      var id := editingUser.value.id;
      r := UserService.UpdateUser(db, id, UpdateOf(p));
      if r.Pass? {
        CloseAndReload(db, now);
      }
    }

    /** The success path of `handleSaveUser`: close the dialog, forget the edited user, reload. */
    method CloseAndReload(db: Database, now: Time)
      modifies this
      ensures !isModalOpen && editingUser == None && ShowsStore(db.users, now)
      ensures searchTerm == old(searchTerm) && filterType == old(filterType) && filterStatus == old(filterStatus)
    {
      isModalOpen := false;
      editingUser := None;
      LoadUsers(db, now);
    }

    /**
     * `handleToggleActive`: once confirmed, an active user is soft-deleted
     * and an inactive one reactivated, so the stored flag flips; the list is
     * then reloaded. Without confirmation nothing happens.
     */
    method HandleToggleActive(db: Database, user: User, confirmed: bool, now: Time) returns (r: Option<Outcome<Error>>)
      requires db.Valid()
      modifies this, db
      ensures db.Valid()
      ensures !confirmed ==> r == None && db.users == old(db.users) && users == old(users) && filteredUsers == old(filteredUsers) && stats == old(stats)
      ensures confirmed && user.id in old(db.users) ==>
        r == Some(Pass) &&
        db.users == old(db.users)[user.id := UserService.WithActive(old(db.users)[user.id], !user.isActive, db.clock)] &&
        UserService.FirestoreToUser(Snapshot(user.id, db.users[user.id]), now).isActive == !user.isActive &&
        ShowsStore(db.users, now)
      ensures confirmed && user.id !in old(db.users) ==>
        r.Some? && r.value.Fail? && db.users == old(db.users) && users == old(users) && filteredUsers == old(filteredUsers) && stats == old(stats)
      ensures db.reports == old(db.reports) && db.comments == old(db.comments) && db.history == old(db.history)
      ensures isModalOpen == old(isModalOpen) && editingUser == old(editingUser)
      ensures searchTerm == old(searchTerm) && filterType == old(filterType) && filterStatus == old(filterStatus)
    {
      if !confirmed {
        return None;
      }
      var outcome;
      if user.isActive {
        outcome := UserService.DeleteUser(db, user.id);
      } else {
        outcome := UserService.ActivateUser(db, user.id);
      }
      r := Some(outcome);
      if outcome.Pass? {
        LoadUsers(db, now);
      }
    }

    /**
     * `handleDeleteUser`: the same soft delete. The user's document stays,
     * now inactive, and every other document is untouched.
     */
    method HandleDeleteUser(db: Database, user: User, confirmed: bool, now: Time) returns (r: Option<Outcome<Error>>)
      requires db.Valid()
      modifies this, db
      ensures db.Valid()
      ensures !confirmed ==> r == None && db.users == old(db.users) && users == old(users) && filteredUsers == old(filteredUsers) && stats == old(stats)
      ensures confirmed && user.id in old(db.users) ==>
        r == Some(Pass) &&
        db.users == old(db.users)[user.id := UserService.WithActive(old(db.users)[user.id], false, db.clock)] &&
        ShowsStore(db.users, now)
      ensures confirmed && user.id !in old(db.users) ==>
        r.Some? && r.value.Fail? && db.users == old(db.users) && users == old(users) && filteredUsers == old(filteredUsers) && stats == old(stats)
      ensures db.reports == old(db.reports) && db.comments == old(db.comments) && db.history == old(db.history)
      ensures isModalOpen == old(isModalOpen) && editingUser == old(editingUser)
      ensures searchTerm == old(searchTerm) && filterType == old(filterType) && filterStatus == old(filterStatus)
    {
      if !confirmed {
        return None;
      }
      var outcome := UserService.DeleteUser(db, user.id);
      r := Some(outcome);
      ghost var written := db.users;
      if outcome.Pass? {
        LoadUsers(db, now);
      }
      assert db.users == written;
    }

    /** The dialog's `onClose`: close it and forget the edited user. */
    method CloseDialog()
      modifies this
      ensures !isModalOpen && editingUser == None
      ensures users == old(users) && filteredUsers == old(filteredUsers) && stats == old(stats) && loading == old(loading)
      ensures searchTerm == old(searchTerm) && filterType == old(filterType) && filterStatus == old(filterStatus)
    {
      isModalOpen := false;
      editingUser := None;
    }

    /**
     * The dialog's submit of an edit, wired to this screen: `handleSubmit`
     * validates and awaits `onSave`, which is `handleSaveUser`; that handler
     * catches its own failure, so the await always resolves and the dialog
     * then calls `onClose`. A valid edit therefore closes the dialog and
     * clears `editingUser` whether or not the update was written, and the
     * dialog shows no save error.
     */
    method SubmitEdit(db: Database, dialog: UserModal.Dialog, now: Time) returns (r: Option<Outcome<Error>>)
      requires db.Valid() && editingUser.Some? && dialog.user == editingUser
      modifies this, db, dialog
      ensures db.Valid()
      ensures var valid := UserModal.ValidationErrors(old(dialog.formData), true) == map[];
        (!valid ==> (r == None && db.users == old(db.users) && isModalOpen == old(isModalOpen) && editingUser == old(editingUser) &&
                     dialog.errors == UserModal.ValidationErrors(old(dialog.formData), true))) &&
        (valid ==> r.Some? && !isModalOpen && editingUser == None && !dialog.isOpen && dialog.errors == map[])
      ensures var id := old(editingUser).value.id;
        (r == Some(Pass) <==> UserModal.ValidationErrors(old(dialog.formData), true) == map[] && id in old(db.users)) &&
        (r == Some(Pass) ==>
          db.users == old(db.users)[id := UserService.Merge(old(db.users)[id], UpdateOf(UserModal.PayloadOf(old(dialog.formData), true)), db.clock)]) &&
        (r != Some(Pass) ==> db.users == old(db.users))
      ensures r == Some(Pass) ==> ShowsStore(db.users, now)
      ensures r != Some(Pass) ==> users == old(users) && filteredUsers == old(filteredUsers) && stats == old(stats)
      ensures db.reports == old(db.reports) && db.comments == old(db.comments) && db.history == old(db.history)
      ensures searchTerm == old(searchTerm) && filterType == old(filterType) && filterStatus == old(filterStatus)
    {
      var sent := dialog.HandleSubmit(None);
      if sent.None? {
        return None;
      }
      var outcome := HandleSaveEdit(db, sent.value, now);
      r := Some(outcome);
      CloseDialog();
    }
  }
}
