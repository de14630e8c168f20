/**
 * The user-management page: the profile table (`user_profiles`), the list the page
 * shows, and the approve / reject / change-role operations. The store is the `table`
 * map; `confirm` answers, store-call outcomes and the server time are parameters.
 */
module UserManagement {
  import opened Common
  import opened Auth
  import opened AuthContext
  import opened Sorting

  /** A listed row: unlike the session profile, `role` and `approved` are taken raw. */
  datatype Row = Row(
    uid: Option<string>,
    email: Option<string>,
    displayName: Option<string>,
    role: Option<string>,
    approved: Option<bool>,
    createdAt: int,
    lastLogin: Option<int>,
    approvedBy: Option<string>,
    approvedAt: Option<int>)

  function ToRow(d: StoredProfile, now: int): (r: Row)
    ensures r.role == d.role && r.approved == d.approved && r.uid == d.uid
    ensures r.createdAt == d.createdAt.GetOr(now)
  {
    Row(d.uid, d.email, d.displayName, d.role, d.approved, d.createdAt.GetOr(now),
        d.lastLogin, d.approvedBy, d.approvedAt)
  }

  /** JavaScript truthiness of the stored `approved` flag. */
  predicate IsApprovedRow(r: Row)
  {
    r.approved == Some(true)
  }

  predicate IsPendingRow(r: Row)
  {
    !IsApprovedRow(r)
  }

  predicate IsAdminRow(r: Row)
  {
    r.role == Some("admin")
  }

  /** The comparator `b.createdAt - a.createdAt`: `a` may come first when it is no older. */
  predicate NewerFirst(a: Row, b: Row)
  {
    a.createdAt >= b.createdAt
  }

  lemma NewerFirstIsPreorder()
    ensures TotalPreorder(NewerFirst)
  {
  }

  /** The documents in the store's enumeration order, mapped to rows. */
  function Rows(table: map<string, StoredProfile>, order: seq<string>, now: int): (rs: seq<Row>)
    requires forall k :: 0 <= k < |order| ==> order[k] in table
    ensures |rs| == |order|
    ensures forall k :: 0 <= k < |order| ==> rs[k] == ToRow(table[order[k]], now)
  {
    if order == [] then [] else [ToRow(table[order[0]], now)] + Rows(table, order[1..], now)
  }

  /** `order` is a snapshot of the table: each stored document exactly once. */
  predicate Enumerates(table: map<string, StoredProfile>, order: seq<string>)
  {
    && Distinct(order)
    && (forall k :: 0 <= k < |order| ==> order[k] in table)
    && (forall id :: id in table ==> id in order)
  }

  /** Rewriting a stored document keeps the snapshot of the table a snapshot. */
  lemma RewriteKeepsSnapshot(table: map<string, StoredProfile>, order: seq<string>, uid: string, d: StoredProfile)
    requires Enumerates(table, order) && uid in table
    ensures Enumerates(table[uid := d], order)
  {
    assert table[uid := d].Keys == table.Keys;
  }

  /** The rows of a snapshot: as many as there are documents, each document's row among them. */
  lemma SnapshotRows(table: map<string, StoredProfile>, order: seq<string>, now: int)
    requires Enumerates(table, order)
    ensures |Rows(table, order, now)| == |table|
    ensures forall id :: id in table ==> ToRow(table[id], now) in Rows(table, order, now)
  {
    EnumerationSize(order, table.Keys);
    forall id | id in table ensures ToRow(table[id], now) in Rows(table, order, now) {
      var k :| 0 <= k < |order| && order[k] == id;
      assert Rows(table, order, now)[k] == ToRow(table[id], now);
    }
  }

  /** The list as the page holds it: newest account first. */
  lemma ListIsNewestFirst(rs: seq<Row>)
    ensures SortedBy(Sort(rs, NewerFirst), NewerFirst)
    ensures multiset(Sort(rs, NewerFirst)) == multiset(rs)
  {
    NewerFirstIsPreorder();
    SortSorted(rs, NewerFirst);
  }

  /** The listed snapshot holds one row per stored document. */
  lemma SnapshotListed(table: map<string, StoredProfile>, order: seq<string>, now: int)
    requires Enumerates(table, order)
    ensures |Sort(Rows(table, order, now), NewerFirst)| == |table|
    ensures forall id :: id in table ==> ToRow(table[id], now) in Sort(Rows(table, order, now), NewerFirst)
  {
    var rows := Rows(table, order, now);
    SnapshotRows(table, order, now);
    ListIsNewestFirst(rows);
    forall id | id in table ensures ToRow(table[id], now) in Sort(rows, NewerFirst) {
      assert ToRow(table[id], now) in multiset(rows);
    }
  }

  datatype Stats = Stats(total: nat, pending: nat, admins: nat, approved: nat)

  /** The four counters over the listed rows. */
  function ComputeStats(users: seq<Row>): (s: Stats)
    ensures s.total == |users|
    ensures s.pending <= s.total && s.approved <= s.total && s.admins <= s.total
  {
    Stats(|users|, Count(users, IsPendingRow), Count(users, IsAdminRow), Count(users, IsApprovedRow))
  }

  /** Every row counts either as pending or as approved. */
  lemma PendingPlusApproved(users: seq<Row>)
    ensures ComputeStats(users).pending + ComputeStats(users).approved == ComputeStats(users).total
  {
    CountComplement(users, IsApprovedRow, IsPendingRow);
  }

  /** What the page shows. */
  datatype Page = AccessDenied | Manager

  function PageFor(permissions: Option<RolePermissions>): (p: Page)
    ensures p == Manager <==> HasPermission(permissions, ManageUsers)
  {
    if HasPermission(permissions, ManageUsers) then Manager else AccessDenied
  }

  /** Only an admin's session reaches the manager view. */
  lemma ManagerIsAdminOnly(role: string)
    requires PageFor(PermissionsFor(role)) == Manager
    ensures role == "admin"
  {
  }

  /** The role selector is disabled on the acting account's own row. */
  predicate RoleSelectDisabled(row: Row, acting: Option<string>)
  {
    row.uid == acting
  }

  /** Approve and reject buttons appear on rows that are not approved. */
  predicate ApprovalButtonsShown(row: Row)
  {
    !IsApprovedRow(row)
  }

  /** The document after `updateUserRole`: role and audit fields change, approval does not. */
  function WithRole(d: StoredProfile, role: Role, acting: Option<string>, now: int): (e: StoredProfile)
    ensures e.role == Some(RoleName(role)) && e.approved == d.approved
    ensures e.updatedAt == Some(now) && e.updatedBy == acting
    ensures e.(role := d.role, updatedAt := d.updatedAt, updatedBy := d.updatedBy) == d
  {
    d.(role := Some(RoleName(role)), updatedAt := Some(now), updatedBy := acting)
  }

  /** The document after `approveUser`: approved, demoted or promoted to viewer, stamped. */
  function Approved(d: StoredProfile, acting: Option<string>, now: int): (e: StoredProfile)
    ensures e.approved == Some(true) && e.role == Some("viewer")
    ensures e.approvedBy == acting && e.approvedAt == Some(now) && e.updatedAt == Some(now)
    ensures e.(approved := d.approved, role := d.role, approvedBy := d.approvedBy,
               approvedAt := d.approvedAt, updatedAt := d.updatedAt) == d
  {
    d.(approved := Some(true), role := Some("viewer"), approvedBy := acting,
       approvedAt := Some(now), updatedAt := Some(now))
  }

  /** An approved account signs in as an approved viewer. */
  lemma ApprovedSignsInAsViewer(d: StoredProfile, acting: Option<string>, now: int, later: int)
    ensures IsApproved(Some(DecodeProfile(Approved(d, acting, now), later)))
    ensures PermissionsFor(DecodeProfile(Approved(d, acting, now), later).role) == Some(Permissions(Viewer))
  {
  }

  class UserManagementPage {
    /** The `user_profiles` collection, keyed by document id. */
    var table: map<string, StoredProfile>
    /** The list shown, as last fetched. */
    var users: seq<Row>
    var loading: bool
    /** The uid whose row is being changed. */
    var updating: Option<string>

    constructor (store: map<string, StoredProfile>)
      ensures table == store && users == [] && loading && updating.None?
    {
      table := store;
      users := [];
      loading := true;
      updating := None;
    }

    /**
     * `fetchUsers`: `order` is the store's enumeration of its documents. On success the
     * list is the rows newest first; on failure the old list stays.
     */
    method FetchUsers(order: seq<string>, read: Step, now: int)
      modifies this
      requires Enumerates(table, order)
      ensures table == old(table) && updating == old(updating) && !loading
      ensures read.Done? ==> users == Sort(Rows(table, order, now), NewerFirst)
      ensures read.Done? ==> |users| == |table| && forall id :: id in table ==> ToRow(table[id], now) in users
      ensures read.Failed? ==> users == old(users)
    {
      loading := true;
      if read.Done? {
        SnapshotListed(table, order, now);
        users := Sort(Rows(table, order, now), NewerFirst);
      }
      loading := false;
    }

    /**
     * `updateUserRole`. Declining the confirmation changes nothing. Otherwise the write
     * fails on a missing document; a successful write is followed by a refetch.
     */
    method UpdateUserRole(uid: string, role: Role, confirmed: bool, write: Step, acting: Option<string>,
                          now: int, order: seq<string>, read: Step)
      modifies this
      requires Enumerates(table, order)
      ensures !confirmed ==> table == old(table) && users == old(users) && loading == old(loading)
                             && updating == old(updating)
      ensures confirmed ==> updating.None?
      ensures confirmed && write.Done? && uid in old(table) ==>
                table == old(table)[uid := WithRole(old(table)[uid], role, acting, now)]
      ensures !(confirmed && write.Done? && uid in old(table)) ==> table == old(table)
      ensures confirmed && write.Done? && uid in old(table) && read.Done? ==>
                users == Sort(Rows(table, order, now), NewerFirst)
      ensures confirmed && write.Done? && uid in old(table) && read.Failed? ==> users == old(users)
      ensures confirmed && write.Done? && uid in old(table) ==> !loading
      ensures confirmed && !(write.Done? && uid in old(table)) ==> users == old(users) && loading == old(loading)
    {
      if !confirmed {
        return;
      }
      updating := Some(uid);
      if write.Done? && uid in table {
        RewriteKeepsSnapshot(table, order, uid, WithRole(table[uid], role, acting, now));
        table := table[uid := WithRole(table[uid], role, acting, now)];
        FetchUsers(order, read, now);
      }
      updating := None;
    }

    /** `approveUser`, with the same confirmation and failure handling. */
    method ApproveUser(uid: string, confirmed: bool, write: Step, acting: Option<string>,
                       now: int, order: seq<string>, read: Step)
      modifies this
      requires Enumerates(table, order)
      ensures !confirmed ==> table == old(table) && users == old(users) && loading == old(loading)
                             && updating == old(updating)
      ensures confirmed ==> updating.None?
      ensures confirmed && write.Done? && uid in old(table) ==>
                table == old(table)[uid := Approved(old(table)[uid], acting, now)]
      ensures !(confirmed && write.Done? && uid in old(table)) ==> table == old(table)
      ensures confirmed && write.Done? && uid in old(table) && read.Done? ==>
                users == Sort(Rows(table, order, now), NewerFirst)
      ensures confirmed && write.Done? && uid in old(table) && read.Failed? ==> users == old(users)
      ensures confirmed && write.Done? && uid in old(table) ==> !loading
      ensures confirmed && !(write.Done? && uid in old(table)) ==> users == old(users) && loading == old(loading)
    {
      if !confirmed {
        return;
      }
      updating := Some(uid);
      if write.Done? && uid in table {
        RewriteKeepsSnapshot(table, order, uid, Approved(table[uid], acting, now));
        table := table[uid := Approved(table[uid], acting, now)];
        FetchUsers(order, read, now);
      }
      updating := None;
    }

    /**
     * `rejectUser`: the document is deleted (deleting a missing document succeeds), then
     * the list is refetched; `order` enumerates the remaining documents.
     */
    method RejectUser(uid: string, confirmed: bool, write: Step, now: int, order: seq<string>, read: Step)
      modifies this
      requires Enumerates(table - {uid}, order)
      ensures !confirmed ==> table == old(table) && users == old(users) && loading == old(loading)
                             && updating == old(updating)
      ensures confirmed ==> updating.None?
      ensures confirmed && write.Done? ==> table == old(table) - {uid} && uid !in table
      ensures !(confirmed && write.Done?) ==> table == old(table)
      ensures confirmed && write.Done? && read.Done? ==>
                users == Sort(Rows(table, order, now), NewerFirst)
      ensures confirmed && write.Done? && read.Failed? ==> users == old(users)
      ensures confirmed && write.Done? ==> !loading
      ensures confirmed && write.Failed? ==> users == old(users) && loading == old(loading)
    {
      if !confirmed {
        return;
      }
      updating := Some(uid);
      if write.Done? {
        table := table - {uid};
        FetchUsers(order, read, now);
      }
      updating := None;
    }
  }
}
