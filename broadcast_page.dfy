/**
 * The broadcast page: the audience a message goes to, the custom selection of
 * recipients, and the send handler's validation and clean-up.
 */
module BroadcastPage {
  import opened Common
  import opened Text
  import opened Records
  import opened BroadcastRoute

  predicate InAudience(u: User, audience: string, selected: seq<string>)
  {
    audience == "all" || (audience == "custom" && u.userId in selected)
    || (audience != "all" && audience != "custom" && u.status == audience)
  }

  function InAudienceOf(audience: string, selected: seq<string>): User -> bool
  {
    (u: User) => InAudience(u, audience, selected)
  }

  /** `filteredUsers`: everyone, the selected contacts, or the contacts of one status. */
  function Audience(users: seq<User>, audience: string, selected: seq<string>): (r: seq<User>)
    ensures Subsequence(r, users)
    ensures forall k :: 0 <= k < |r| ==> InAudience(r[k], audience, selected)
    ensures forall k :: 0 <= k < |users| && InAudience(users[k], audience, selected) ==> users[k] in r
    ensures audience == "all" ==> r == users
    ensures r == Filter(users, InAudienceOf(audience, selected))
  {
    var p := InAudienceOf(audience, selected);
    assert audience == "all" ==> Filter(users, p) == users by {
      if audience == "all" {
        FilterAll(users, p);
      }
    }
    Filter(users, p)
  }

  function UserIds(users: seq<User>): (r: seq<string>)
    ensures |r| == |users|
    ensures forall k :: 0 <= k < |users| ==> r[k] == users[k].userId
  {
    if users == [] then [] else [users[0].userId] + UserIds(users[1..])
  }

  /** `recipientCount`: the selection's size in custom mode, else the audience's. */
  function RecipientCount(users: seq<User>, audience: string, selected: seq<string>): nat
  {
    if audience == "custom" then |selected| else |Audience(users, audience, selected)|
  }

  /** The ids handed to the send: the selection in custom mode, else the audience's ids. */
  function Recipients(users: seq<User>, audience: string, selected: seq<string>): seq<string>
  {
    if audience == "custom" then selected else UserIds(Audience(users, audience, selected))
  }

  /** The confirmation names exactly as many recipients as are sent to. */
  lemma RecipientCountMatches(users: seq<User>, audience: string, selected: seq<string>)
    ensures |Recipients(users, audience, selected)| == RecipientCount(users, audience, selected)
    ensures audience != "custom" ==> forall id :: id in Recipients(users, audience, selected) ==>
              exists k :: 0 <= k < |users| && users[k].userId == id && InAudience(users[k], audience, selected)
  {
    if audience != "custom" {
      var a := Audience(users, audience, selected);
      forall id | id in Recipients(users, audience, selected)
        ensures exists k :: 0 <= k < |users| && users[k].userId == id && InAudience(users[k], audience, selected)
      {
        var i :| 0 <= i < |a| && UserIds(a)[i] == id;
        assert a[i] in users;
        var k :| 0 <= k < |users| && users[k] == a[i];
      }
    }
  }

  /** `toggleUserSelection`: drop the id when selected, else append it. */
  function Toggle(prev: seq<string>, id: string): (r: seq<string>)
    ensures id in r <==> id !in prev
    ensures forall x :: x != id ==> (x in r <==> x in prev)
    ensures Distinct(prev) ==> Distinct(r)
  {
    if id in prev then
      var r := Filter(prev, (x: string) => x != id);
      assert forall x :: x != id && x in prev ==> x in r by {
        forall x | x != id && x in prev ensures x in r {
          var k :| 0 <= k < |prev| && prev[k] == x;
        }
      }
      DropKeepsDistinct(prev, id);
      r
    else prev + [id]
  }

  lemma DropKeepsDistinct(prev: seq<string>, id: string)
    ensures Distinct(prev) ==> Distinct(Filter(prev, (x: string) => x != id))
  {
    if Distinct(prev) {
      FilterDistinct(prev, (x: string) => x != id);
    }
  }

  /** Ticking a box twice restores an unticked selection. */
  lemma ToggleTwice(prev: seq<string>, id: string)
    requires id !in prev
    ensures Toggle(Toggle(prev, id), id) == prev
  {
    var p := (x: string) => x != id;
    FilterAppend(prev, [id], p);
    FilterAll(prev, p);
    assert Filter([id], p) == [];
  }

  /**
   * `selectAll` as written: the selection becomes the audience's ids. The button is only
   * shown in custom mode, where the audience is the contacts already selected.
   */
  function SelectAllAsWritten(users: seq<User>, audience: string, selected: seq<string>): seq<string>
  {
    UserIds(Audience(users, audience, selected))
  }

  /** In custom mode the written `selectAll` never selects anyone new. */
  lemma SelectAllAddsNobody(users: seq<User>, selected: seq<string>)
    ensures forall id :: id in SelectAllAsWritten(users, "custom", selected) ==> id in selected
  {
    var a := Audience(users, "custom", selected);
    forall id | id in SelectAllAsWritten(users, "custom", selected) ensures id in selected {
      var i :| 0 <= i < |a| && UserIds(a)[i] == id;
      assert InAudience(a[i], "custom", selected);
    }
  }

  /** The written `selectAll` on an empty selection selects nobody, whoever is listed. */
  lemma SelectAllFromNothing(users: seq<User>)
    ensures SelectAllAsWritten(users, "custom", []) == []
  {
    var a := Audience(users, "custom", []);
    if a != [] {
      assert InAudience(a[0], "custom", []);
    }
  }

  /** `selectAll` as intended: every contact listed in the custom panel becomes selected. */
  function SelectAll(users: seq<User>): (r: seq<string>)
    ensures forall k :: 0 <= k < |users| ==> users[k].userId in r
    ensures forall id :: id in r ==> exists k :: 0 <= k < |users| && users[k].userId == id
  {
    var r := UserIds(users);
    assert forall id :: id in r ==> exists k :: 0 <= k < |users| && r[k] == id;
    r
  }

  /** The page's state. */
  class BroadcastForm {
    var message: string
    var targetAudience: string
    var selectedUsers: seq<string>
    var sendResult: Option<BroadcastResult>

    constructor ()
      ensures message == "" && targetAudience == "all" && selectedUsers == [] && sendResult.None?
    {
      message := "";
      targetAudience := "all";
      selectedUsers := [];
      sendResult := None;
    }

    method ToggleUserSelection(id: string)
      modifies this
      ensures selectedUsers == Toggle(old(selectedUsers), id)
      ensures message == old(message) && targetAudience == old(targetAudience) && sendResult == old(sendResult)
    {
      if id in selectedUsers {
        selectedUsers := Filter(selectedUsers, (x: string) => x != id);
      } else {
        selectedUsers := selectedUsers + [id];
      }
    }

    /** `selectAll`: the selection becomes the ids of the audience shown, as written. */
    method SelectAllUsers(users: seq<User>)
      modifies this
      ensures selectedUsers == SelectAllAsWritten(users, old(targetAudience), old(selectedUsers))
      ensures old(targetAudience) == "custom" ==> forall id :: id in selectedUsers ==> id in old(selectedUsers)
      ensures message == old(message) && targetAudience == old(targetAudience) && sendResult == old(sendResult)
    {
      if targetAudience == "custom" {
        SelectAllAddsNobody(users, selectedUsers);
      }
      selectedUsers := UserIds(Audience(users, targetAudience, selectedUsers));
    }

    method DeselectAll()
      modifies this
      ensures selectedUsers == []
      ensures message == old(message) && targetAudience == old(targetAudience) && sendResult == old(sendResult)
    {
      selectedUsers := [];
    }

    /**
     * `handleSendBroadcast`. A blank message or no recipient stops with an alert, as does
     * a declined confirmation; `sent` is then None. Otherwise the recipients are sent to;
     * `outcome` is the hook's tally, None when it threw. Message and selection are cleared
     * only when nothing failed.
     */
    method HandleSendBroadcast(users: seq<User>, confirmed: bool, outcome: Option<BroadcastResult>)
      returns (sent: Option<seq<string>>)
      modifies this
      ensures Blank(old(message)) || RecipientCount(users, old(targetAudience), old(selectedUsers)) == 0 || !confirmed
              ==> sent.None? && message == old(message) && selectedUsers == old(selectedUsers)
                  && sendResult == old(sendResult)
      ensures sent.Some? ==> sent.value == Recipients(users, old(targetAudience), old(selectedUsers))
                             && |sent.value| > 0
      ensures sent.Some? && outcome.Some? ==> sendResult == outcome
      ensures sent.Some? && outcome.Some? && outcome.value.failed == 0 ==> message == "" && selectedUsers == []
      ensures !(sent.Some? && outcome.Some? && outcome.value.failed == 0) ==>
                message == old(message) && selectedUsers == old(selectedUsers)
      ensures outcome.None? ==> sendResult == old(sendResult)
      ensures sent.None? <==> Blank(old(message)) || RecipientCount(users, old(targetAudience), old(selectedUsers)) == 0 || !confirmed
      ensures targetAudience == old(targetAudience)
    {
      sent := None;
      if Blank(message) {
        return;
      }
      if RecipientCount(users, targetAudience, selectedUsers) == 0 {
        return;
      }
      if !confirmed {
        return;
      }
      RecipientCountMatches(users, targetAudience, selectedUsers);
      sent := Some(Recipients(users, targetAudience, selectedUsers));
      if outcome.Some? {
        sendResult := outcome;
        if outcome.value.failed == 0 {
          message := "";
          selectedUsers := [];
        }
      }
    }
  }
}
