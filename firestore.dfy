/**
 * The document store the services read and write, as an in-memory table.
 *
 * The `users` and `reports` collections map a document id to its data. The
 * `comments` and `statusHistory` sub-collections of a report are append-only
 * logs keyed by the report id. `serverTimestamp()` is a clock that advances
 * by one on every write, so all the server timestamps of one write share a
 * value and later writes carry larger ones; an automatically generated
 * document id is derived from the timestamp of the write that creates it.
 *
 * A query on a whole collection returns its documents in ascending id
 * order. `where` keeps the documents whose field meets the condition (a
 * missing field meets none). `orderBy` leaves out the documents that lack
 * the field and sorts the rest stably, so that ties stay in id order,
 * ascending for an ascending sort and descending for a descending one.
 */
module Firestore {
  import opened Wrappers
  import Text
  import Seqs
  import opened ReportTypes
  import opened UserTypes

  /** A document of a collection together with its id, as a query returns it. */
  datatype Snapshot<T> = Snapshot(id: string, data: T)

  /** A document of a report's `comments` sub-collection. */
  datatype CommentDoc = CommentDoc(
    id: string, reportId: string, userId: string, userEmail: string, userType: string,
    content: string, createdAt: Time, updatedAt: Time)

  /** A document of a report's `statusHistory` sub-collection. */
  datatype HistoryDoc = HistoryDoc(
    id: string, reportId: string, oldStatus: string, newStatus: string, changedBy: string,
    changedByUser: string, notes: string, timestamp: Time, automatic: Option<bool>)

  /** What a failed write or a failed check raises. */
  datatype Error =
    | ReportNotFound            // "Report not found"
    | EmployeeNotFound          // "Employee not found"
    | NoDocumentToUpdate(path: string)  // `updateDoc` on a document that does not exist

  /** The id `addDoc` gives the document created by the write at time `t`. */
  function AutoId(t: nat): (id: string)
    ensures Text.ParseNat(id) == t
  {
    Text.NatToStringRoundTrip(t);
    Text.NatToString(t)
  }

  // ---------------------------------------------------------------------------
  // Reading collections

  /** The document ids of a collection in ascending order. */
  function Ids<T>(m: map<string, T>): (ids: seq<string>)
    ensures forall id :: id in ids <==> id in m
    ensures |ids| == |m|
  {
    Text.SortedStrings(m.Keys)
  }

  /** The ids come in strictly ascending order, so none repeats. */
  lemma IdsAscending<T>(m: map<string, T>)
    ensures Text.StrictlyIncreasing(Ids(m))
  {
  }

  /** `getDocs(collection(...))`: every document of the collection, in ascending id order. */
  function Docs<T>(m: map<string, T>): (r: seq<Snapshot<T>>)
    ensures |r| == |Ids(m)|
    ensures forall i :: 0 <= i < |r| ==> r[i].id == Ids(m)[i] && r[i].id in m && r[i].data == m[r[i].id]
  {
    var ids := Ids(m);
    seq(|ids|, i requires 0 <= i < |ids| => Snapshot(ids[i], m[ids[i]]))
  }

  /** A returned document is the one stored under its id. */
  lemma DocStored<T>(m: map<string, T>, s: Snapshot<T>)
    requires s in Docs(m)
    ensures s.id in m && s.data == m[s.id]
  {
    var i :| 0 <= i < |Docs(m)| && Docs(m)[i] == s;
  }

  /** Every document of the collection is returned, exactly once. */
  lemma DocsComplete<T>(m: map<string, T>, id: string)
    requires id in m
    ensures exists i :: 0 <= i < |Docs(m)| && Docs(m)[i] == Snapshot(id, m[id])
    ensures forall i, j :: 0 <= i < j < |Docs(m)| ==> Docs(m)[i].id != Docs(m)[j].id
  {
    var ids := Ids(m);
    IdsAscending(m);
    var i :| 0 <= i < |ids| && ids[i] == id;
    assert Docs(m)[i] == Snapshot(id, m[id]);
    forall i, j | 0 <= i < j < |Docs(m)| ensures Docs(m)[i].id != Docs(m)[j].id {
      assert Text.StrLt(ids[i], ids[j]);
      Text.StrLtIrreflexive(ids[i]);
    }
  }

  // ---------------------------------------------------------------------------
  // orderBy comparators

  predicate HasCreatedAt(s: Snapshot<ReportDoc>) { s.data.createdAt.Some? }

  /** `orderBy('createdAt', 'desc')` on reports. */
  predicate NewerReport(a: Snapshot<ReportDoc>, b: Snapshot<ReportDoc>) {
    a.data.createdAt.GetOr(0) >= b.data.createdAt.GetOr(0)
  }

  /** `orderBy('createdAt', 'asc')` on reports. */
  predicate OlderReport(a: Snapshot<ReportDoc>, b: Snapshot<ReportDoc>) {
    a.data.createdAt.GetOr(0) <= b.data.createdAt.GetOr(0)
  }

  /** `where('userType', 'in', ['EMPLOYEE', 'ADMIN'])`: staff, whether or not their account is active. */
  predicate IsStaffDoc(s: Snapshot<UserDoc>) {
    s.data.userType == EMPLOYEE || s.data.userType == ADMIN
  }

  predicate UserHasCreatedAt(s: Snapshot<UserDoc>) { s.data.createdAt.Some? }

  /** `orderBy('createdAt', 'desc')` on users. */
  predicate NewerUser(a: Snapshot<UserDoc>, b: Snapshot<UserDoc>) {
    a.data.createdAt.GetOr(0) >= b.data.createdAt.GetOr(0)
  }

  /** `orderBy('fullName', 'asc')` on users. */
  predicate ByFullName(a: Snapshot<UserDoc>, b: Snapshot<UserDoc>) {
    Text.StrLe(a.data.fullName, b.data.fullName)
  }

  lemma ComparatorsArePreorders()
    ensures Seqs.TotalPreorder(NewerReport) && Seqs.TotalPreorder(OlderReport)
    ensures Seqs.TotalPreorder(NewerUser) && Seqs.TotalPreorder(ByFullName)
  {
    Text.StrLeTotalOrder();
  }

  /** Reports newest first; reports without `createdAt` are left out. */
  function ReportsNewestFirst(docs: seq<Snapshot<ReportDoc>>): (r: seq<Snapshot<ReportDoc>>)
    ensures multiset(r) == multiset(Seqs.Filter(docs, HasCreatedAt))
    ensures Seqs.Sorted(r, NewerReport)
  {
    ComparatorsArePreorders();
    Seqs.SortBySorted(Seqs.Reverse(Seqs.Filter(docs, HasCreatedAt)), NewerReport);
    Seqs.SortBy(Seqs.Reverse(Seqs.Filter(docs, HasCreatedAt)), NewerReport)
  }

  /** `orderBy('fullName', 'asc')` keeps every document. */
  lemma ByFullNameMembers(docs: seq<Snapshot<UserDoc>>, s: Snapshot<UserDoc>)
    ensures s in UsersByFullName(docs) <==> s in docs
  {
    Seqs.SameMembers(s, UsersByFullName(docs), docs);
  }

  /** `orderBy('createdAt', 'desc')` keeps exactly the dated documents. */
  lemma NewestFirstMembers(docs: seq<Snapshot<ReportDoc>>, s: Snapshot<ReportDoc>)
    ensures s in ReportsNewestFirst(docs) <==> s in docs && HasCreatedAt(s)
  {
    Seqs.SameMembers(s, ReportsNewestFirst(docs), Seqs.Filter(docs, HasCreatedAt));
  }

  /** Users newest first; users without `createdAt` are left out. */
  function UsersNewestFirst(docs: seq<Snapshot<UserDoc>>): (r: seq<Snapshot<UserDoc>>)
    ensures multiset(r) == multiset(Seqs.Filter(docs, UserHasCreatedAt))
    ensures Seqs.Sorted(r, NewerUser)
  {
    ComparatorsArePreorders();
    Seqs.SortBySorted(Seqs.Reverse(Seqs.Filter(docs, UserHasCreatedAt)), NewerUser);
    Seqs.SortBy(Seqs.Reverse(Seqs.Filter(docs, UserHasCreatedAt)), NewerUser)
  }

  /** Users in ascending `fullName` order. */
  function UsersByFullName(docs: seq<Snapshot<UserDoc>>): (r: seq<Snapshot<UserDoc>>)
    ensures multiset(r) == multiset(docs)
    ensures Seqs.Sorted(r, ByFullName)
  {
    ComparatorsArePreorders();
    Seqs.SortBySorted(docs, ByFullName);
    Seqs.SortBy(docs, ByFullName)
  }

  // ---------------------------------------------------------------------------
  // Sub-collection logs

  /** Entries of a log carry strictly increasing timestamps, none later than the clock. */
  predicate CommentsInOrder(log: seq<CommentDoc>, clock: nat) {
    (forall i :: 0 <= i < |log| ==> log[i].createdAt <= clock) &&
    (forall i, j :: 0 <= i < j < |log| ==> log[i].createdAt < log[j].createdAt)
  }

  predicate HistoryInOrder(log: seq<HistoryDoc>, clock: nat) {
    (forall i :: 0 <= i < |log| ==> log[i].timestamp <= clock) &&
    (forall i, j :: 0 <= i < j < |log| ==> log[i].timestamp < log[j].timestamp)
  }

  /** An entry stamped after every earlier one keeps the log in order. */
  lemma CommentAppendInOrder(log: seq<CommentDoc>, clock: nat, c: CommentDoc)
    requires CommentsInOrder(log, clock) && clock < c.createdAt
    ensures CommentsInOrder(log + [c], c.createdAt)
  {
  }

  lemma HistoryAppendInOrder(log: seq<HistoryDoc>, clock: nat, h: HistoryDoc)
    requires HistoryInOrder(log, clock) && clock < h.timestamp
    ensures HistoryInOrder(log + [h], h.timestamp)
  {
  }

  /**
   * The store. Every write is one of the service operations, each a
   * sequence of separate document writes (no transactions).
   */
  class Database {
    var users: map<string, UserDoc>
    var reports: map<string, ReportDoc>
    var comments: map<string, seq<CommentDoc>>
    var history: map<string, seq<HistoryDoc>>
    /** The last server timestamp handed out. */
    var clock: nat

    /** The logs are ordered by their server timestamps. */
    ghost predicate Valid()
      reads this
    {
      (forall id :: id in comments ==> CommentsInOrder(comments[id], clock)) &&
      (forall id :: id in history ==> HistoryInOrder(history[id], clock))
    }

    /** A store holding the given documents and no sub-collection entries. */
    constructor(users: map<string, UserDoc>, reports: map<string, ReportDoc>)
      ensures Valid()
      ensures this.users == users && this.reports == reports
      ensures comments == map[] && history == map[] && clock == 0
    {
      this.users := users;
      this.reports := reports;
      comments := map[];
      history := map[];
      clock := 0;
    }

    /** The comments of a report, oldest first (none for a report nobody commented on). */
    function Comments(reportId: string): seq<CommentDoc>
      reads this
    {
      if reportId in comments then comments[reportId] else []
    }

    function History(reportId: string): seq<HistoryDoc>
      reads this
    {
      if reportId in history then history[reportId] else []
    }

    /** `serverTimestamp()` for the next write. */
    method ServerTimestamp() returns (t: nat)
      requires Valid()
      modifies this
      ensures Valid()
      ensures clock == old(clock) + 1 && t == clock
      ensures users == old(users) && reports == old(reports)
      ensures comments == old(comments) && history == old(history)
    {
      clock := clock + 1;
      t := clock;
    }

    /** `updateDoc` or `setDoc` on `reports/{id}`: the report document becomes `d`. */
    method PutReport(id: string, d: ReportDoc)
      requires Valid()
      modifies this
      ensures Valid()
      ensures reports == old(reports)[id := d]
      ensures users == old(users) && comments == old(comments) && history == old(history) && clock == old(clock)
    {
      reports := reports[id := d];
    }

    /** `updateDoc` or `setDoc` on `users/{id}`. */
    method PutUser(id: string, d: UserDoc)
      requires Valid()
      modifies this
      ensures Valid()
      ensures users == old(users)[id := d]
      ensures reports == old(reports) && comments == old(comments) && history == old(history) && clock == old(clock)
    {
      users := users[id := d];
    }

    /** `addDoc` on `reports/{reportId}/comments`; it succeeds whether or not the report exists. */
    method AppendComment(reportId: string, userId: string, userEmail: string, userType: string, content: string)
      returns (c: CommentDoc)
      requires Valid()
      modifies this
      ensures Valid()
      ensures clock == old(clock) + 1
      ensures c == CommentDoc(AutoId(clock), reportId, userId, userEmail, userType, content, clock, clock)
      ensures comments == old(comments)[reportId := old(Comments(reportId)) + [c]]
      ensures users == old(users) && reports == old(reports) && history == old(history)
    {
      assert CommentsInOrder(Comments(reportId), clock);
      var t := ServerTimestamp();
      c := CommentDoc(AutoId(t), reportId, userId, userEmail, userType, content, t, t);
      CommentAppendInOrder(Comments(reportId), t - 1, c);
      comments := comments[reportId := Comments(reportId) + [c]];
    }

    /** `addDoc` on `reports/{reportId}/statusHistory`. */
    method AppendHistory(reportId: string, oldStatus: string, newStatus: string, changedBy: string,
                         changedByUser: string, notes: string, automatic: bool)
      returns (h: HistoryDoc)
      requires Valid()
      modifies this
      ensures Valid()
      ensures clock == old(clock) + 1
      ensures h == HistoryDoc(AutoId(clock), reportId, oldStatus, newStatus, changedBy, changedByUser,
                              notes, clock, Some(automatic))
      ensures history == old(history)[reportId := old(History(reportId)) + [h]]
      ensures users == old(users) && reports == old(reports) && comments == old(comments)
    {
      assert HistoryInOrder(History(reportId), clock);
      var t := ServerTimestamp();
      h := HistoryDoc(AutoId(t), reportId, oldStatus, newStatus, changedBy, changedByUser, notes, t, Some(automatic));
      HistoryAppendInOrder(History(reportId), t - 1, h);
      history := history[reportId := History(reportId) + [h]];
    }
  }

  /** Comments by creation time: the comparator of `orderBy('createdAt', 'asc')`. */
  predicate CommentBefore(a: CommentDoc, b: CommentDoc) { a.createdAt <= b.createdAt }

  predicate HistoryBefore(a: HistoryDoc, b: HistoryDoc) { a.timestamp <= b.timestamp }

  /** Sorting a log by its timestamps returns it in the order it was written. */
  lemma CommentQueryInInsertionOrder(log: seq<CommentDoc>, clock: nat)
    requires CommentsInOrder(log, clock)
    ensures Seqs.SortBy(log, CommentBefore) == log
  {
    Seqs.SortBySortedIdentity(log, CommentBefore);
  }

  lemma HistoryQueryInInsertionOrder(log: seq<HistoryDoc>, clock: nat)
    requires HistoryInOrder(log, clock)
    ensures Seqs.SortBy(log, HistoryBefore) == log
  {
    Seqs.SortBySortedIdentity(log, HistoryBefore);
  }

  /** A second write to the same document replaces the first. */
  lemma UpdateTwice<V>(m: map<string, V>, k: string, a: V, b: V)
    ensures m[k := a][k := b] == m[k := b]
  {
  }
}
