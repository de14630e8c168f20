/**
 * The consultations page: the status filter buttons, the counters, and the status
 * update of one consultation in the `consultations` collection.
 */
module Consultations {
  import opened Common
  import opened Text
  import opened Records

  /** The filter buttons, in the order shown. */
  const Labels: seq<string> := ["All", "Pending", "Contacted", "Won", "Lost", "Closed"]

  /** The status buttons on each row. */
  const Statuses: seq<string> := ["pending", "contacted", "won", "lost", "closed"]

  /** The filter a label selects: none for 'All', else the label in lower case. */
  function FilterFor(name: string): (f: Option<string>)
    ensures name == "All" <==> f.None?
    ensures f.Some? ==> f.value == Lower(name)
  {
    if name == "All" then None else Some(Lower(name))
  }

  /** A filter button is highlighted for 'All' with no filter, or when its lowered label is the filter. */
  predicate Highlighted(name: string, filter: Option<string>)
  {
    (name == "All" && filter.None?) || Some(Lower(name)) == filter
  }

  /** Lowering a capitalised word lowers its first letter only. */
  lemma LowerCapitalised(w: string)
    requires |w| > 0 && 'A' <= w[0] <= 'Z'
    requires forall k :: 1 <= k < |w| ==> !('A' <= w[k] <= 'Z')
    ensures Lower(w) == [(w[0] as int + 32) as char] + w[1..]
  {
    assert forall k :: 1 <= k < |w| ==> Lower(w)[k] == w[k];
  }

  /** A word with a capital first letter and no other capital. */
  predicate Capitalised(w: string)
  {
    |w| > 0 && 'A' <= w[0] <= 'Z' && forall k :: 1 <= k < |w| ==> !('A' <= w[k] <= 'Z')
  }

  /** Capitalised words that lower alike are the same word. */
  lemma LowerInjective(a: string, b: string)
    requires Capitalised(a) && Capitalised(b) && Lower(a) == Lower(b)
    ensures a == b
  {
    LowerCapitalised(a);
    LowerCapitalised(b);
    assert Lower(a)[1..] == a[1..] && Lower(b)[1..] == b[1..];
    assert a == [a[0]] + a[1..] && b == [b[0]] + b[1..];
  }

  lemma LabelsCapitalised(w: string)
    requires w in Labels
    ensures Capitalised(w)
  {
    if w == "Pending" {
      assert Capitalised("Pending");
    } else if w == "Contacted" {
      assert Capitalised("Contacted");
    } else if w == "Won" {
      assert Capitalised("Won");
    } else if w == "Lost" {
      assert Capitalised("Lost");
    } else if w == "Closed" {
      assert Capitalised("Closed");
    } else {
      assert Capitalised("All");
    }
  }

  /** After a filter button is clicked, that button and no other is highlighted. */
  lemma ClickHighlightsOne(clicked: string, shown: string)
    requires clicked in Labels && shown in Labels
    ensures Highlighted(shown, FilterFor(clicked)) <==> shown == clicked
  {
    if clicked != "All" && Highlighted(shown, FilterFor(clicked)) {
      LabelsCapitalised(clicked);
      LabelsCapitalised(shown);
      LowerInjective(shown, clicked);
    }
  }

  /** The row filter the clicked label sets is one of the row statuses, or none. */
  lemma FiltersAreStatuses()
    ensures FilterFor(Labels[0]).None?
    ensures forall i :: 1 <= i < |Labels| ==> FilterFor(Labels[i]) == Some(Statuses[i - 1])
  {
    forall i | 1 <= i < |Labels| ensures FilterFor(Labels[i]) == Some(Statuses[i - 1]) {
      LabelFilter(i);
    }
  }

  lemma LabelFilter(i: nat)
    requires 1 <= i < |Labels|
    ensures FilterFor(Labels[i]) == Some(Statuses[i - 1])
  {
    if i == 1 {
      LowerPending();
    } else if i == 2 {
      LowerContacted();
    } else if i == 3 {
      LowerWon();
    } else if i == 4 {
      LowerLost();
    } else {
      LowerClosed();
    }
  }

  lemma LowerPending()
    ensures Lower("Pending") == "pending"
  {
    LowerCapitalised("Pending");
  }

  lemma LowerContacted()
    ensures Lower("Contacted") == "contacted"
  {
    LowerCapitalised("Contacted");
  }

  lemma LowerWon()
    ensures Lower("Won") == "won"
  {
    LowerCapitalised("Won");
  }

  lemma LowerLost()
    ensures Lower("Lost") == "lost"
  {
    LowerCapitalised("Lost");
  }

  lemma LowerClosed()
    ensures Lower("Closed") == "closed"
  {
    LowerCapitalised("Closed");
  }

  function StatusOf(c: Consultation): string
  {
    c.status
  }

  datatype Stats = Stats(pending: nat, contacted: nat, won: nat, total: nat)

  function ComputeStats(cs: seq<Consultation>): (s: Stats)
    ensures s.total == |cs|
    ensures s.pending + s.contacted + s.won <= s.total
  {
    var vs := ["pending", "contacted", "won"];
    assert forall i, j :: 0 <= i < j < |vs| ==> vs[i] != vs[j];
    SumCountsBound(cs, StatusOf, vs);
    assert SumCounts(cs, StatusOf, vs[2..]) == CountBy(cs, StatusOf, "won") + SumCounts(cs, StatusOf, []);
    assert vs[1..] == ["contacted", "won"];
    Stats(CountBy(cs, StatusOf, "pending"), CountBy(cs, StatusOf, "contacted"), CountBy(cs, StatusOf, "won"), |cs|)
  }

  /** A status button is disabled while its row is being updated or when the row has that status. */
  predicate ButtonDisabled(updating: Option<string>, c: Consultation, status: string)
  {
    updating == Some(c.id) || c.status == status
  }

  class ConsultationsPage {
    /** The `consultations` collection, keyed by document id. */
    var store: map<string, Consultation>
    var statusFilter: Option<string>
    var updating: Option<string>

    constructor (docs: map<string, Consultation>)
      ensures store == docs && statusFilter.None? && updating.None?
    {
      store := docs;
      statusFilter := None;
      updating := None;
    }

    method ClickFilter(name: string)
      modifies this
      ensures statusFilter == FilterFor(name) && store == old(store) && updating == old(updating)
    {
      statusFilter := if name == "All" then None else Some(Lower(name));
    }

    /**
     * `updateStatus`: only the status field is written (a write to a missing document
     * fails); `updating` names the row during the call and is cleared afterwards.
     */
    method UpdateStatus(id: string, newStatus: string, write: Step)
      modifies this
      ensures updating.None? && statusFilter == old(statusFilter)
      ensures write.Done? && id in old(store) ==> store == old(store)[id := old(store)[id].(status := newStatus)]
      ensures !(write.Done? && id in old(store)) ==> store == old(store)
    {
      updating := Some(id);
      if write.Done? && id in store {
        store := store[id := store[id].(status := newStatus)];
      }
      updating := None;
    }
  }

  /**
   * While its row is not being updated, a status button is disabled exactly when its write would
   * leave the store as it is.
   */
  lemma DisabledExactlyWhenNoChange(store: map<string, Consultation>, id: string, status: string,
                                    updating: Option<string>)
    requires id in store && updating != Some(store[id].id)
    ensures ButtonDisabled(updating, store[id], status) <==> store[id := store[id].(status := status)] == store
  {
    if store[id].status == status {
      assert store[id].(status := status) == store[id];
    }
    if store[id := store[id].(status := status)] == store {
      assert store[id := store[id].(status := status)][id].status == status;
    }
  }
}
