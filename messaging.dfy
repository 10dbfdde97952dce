/** Tenant messaging (client/src/pages/manager/messaging.tsx): one message
    text and a list of selected tenant ids, changed by the check boxes and
    reset by the two send buttons. The outcome of each `fetch` is the
    `sendOk` parameter: true when the response was `ok`. */
module Messaging {
  import Seqs

  /** The selection after unticking `tenantId`: every other id, in order. */
  function Without(ids: seq<int>, tenantId: int): (r: seq<int>)
    ensures tenantId !in r
    ensures forall x :: x in r <==> x in ids && x != tenantId
    ensures |r| <= |ids|
  {
    Seqs.Filter(ids, (x: int) => x != tenantId)
  }

  /** Unchecking keeps every other id, as often as it occurred and in order. */
  lemma WithoutKeepsOthers(ids: seq<int>, tenantId: int)
    ensures Seqs.IsSubsequence(Without(ids, tenantId), ids)
    ensures forall x :: x != tenantId ==> multiset(Without(ids, tenantId))[x] == multiset(ids)[x]
  {
    var p := (x: int) => x != tenantId;
    Seqs.FilterIsSubsequence(ids, p);
    forall x | x != tenantId ensures multiset(Seqs.Filter(ids, p))[x] == multiset(ids)[x] {
      Seqs.FilterMultiplicity(ids, p, x);
    }
  }

  /** Unchecking a tenant that was never selected changes nothing. */
  lemma WithoutAbsent(ids: seq<int>, tenantId: int)
    requires tenantId !in ids
    ensures Without(ids, tenantId) == ids
  {
    Seqs.FilterKeepsAll(ids, (x: int) => x != tenantId);
  }

  /** Checking a tenant and unchecking it again restores the selection. */
  lemma CheckThenUncheck(ids: seq<int>, tenantId: int)
    requires tenantId !in ids
    ensures Without(ids + [tenantId], tenantId) == ids
  {
    var p := (x: int) => x != tenantId;
    Seqs.FilterAppend(ids, [tenantId], p);
    WithoutAbsent(ids, tenantId);
    assert Seqs.Filter([tenantId], p) == [];
  }

  class MessagingPage {
    var message: string
    var selectedTenants: seq<int>

    constructor()
      ensures message == "" && selectedTenants == []
    {
      message := "";
      selectedTenants := [];
    }

    /** The check box of a tenant is ticked iff its id is selected. */
    predicate IsChecked(tenantId: int): (checked: bool)
      reads this
      ensures checked <==> exists i :: 0 <= i < |selectedTenants| && selectedTenants[i] == tenantId
    {
      tenantId in selectedTenants
    }

    /** "Send to All Tenants" is disabled iff the message is empty. */
    predicate SendAllDisabled(): (disabled: bool)
      reads this
      ensures disabled <==> |message| == 0
    {
      message == ""
    }

    /** "Send to Selected Tenants" is disabled iff the message or the selection is empty. */
    predicate SendSelectedDisabled(): (disabled: bool)
      reads this
      ensures disabled <==> SendAllDisabled() || forall id :: !IsChecked(id)
    {
      assert selectedTenants != [] ==> IsChecked(selectedTenants[0]);
      message == "" || |selectedTenants| == 0
    }

    /** Typing into either text area. */
    method SetMessage(text: string)
      modifies this
      ensures message == text && selectedTenants == old(selectedTenants)
      ensures SendAllDisabled() <==> text == ""
    {
      message := text;
    }

    /** `onCheckedChange`: ticking appends the id, unticking removes every copy of it. */
    method OnCheckedChange(tenantId: int, checked: bool)
      modifies this
      ensures checked ==> selectedTenants == old(selectedTenants) + [tenantId]
      ensures !checked ==> selectedTenants == Without(old(selectedTenants), tenantId)
      ensures message == old(message)
      ensures IsChecked(tenantId) <==> checked
      ensures forall x :: x != tenantId ==> (IsChecked(x) <==> old(IsChecked(x)))
    {
      if checked {
        selectedTenants := selectedTenants + [tenantId];
      } else {
        selectedTenants := Without(selectedTenants, tenantId);
      }
    }

    /** `handleMassMessage`: sends the message; on success the text area is cleared. */
    method HandleMassMessage(sendOk: bool) returns (sent: string)
      modifies this
      ensures sent == old(message)
      ensures message == (if sendOk then "" else old(message))
      ensures selectedTenants == old(selectedTenants)
    {
      sent := message;
      if sendOk {
        message := "";
      }
    }

    /** `handleSelectMessage`: sends the message to the selected ids; on
        success both the text and the selection are cleared. */
    method HandleSelectMessage(sendOk: bool) returns (sent: string, tenantIds: seq<int>)
      modifies this
      ensures sent == old(message) && tenantIds == old(selectedTenants)
      ensures sendOk ==> message == "" && selectedTenants == [] && SendSelectedDisabled()
      ensures !sendOk ==> message == old(message) && selectedTenants == old(selectedTenants)
    {
      sent, tenantIds := message, selectedTenants;
      if sendOk {
        message := "";
        selectedTenants := [];
      }
    }
  }
}
