/** The electricity bills tab of the property screen. The subscription list
    is hoisted: the tab never changes it, it hands a new list to
    `onSubscriptionsChange`, so each callback here returns the list it would
    hand over. What the tab remembers between recompositions (the selected
    tab, the selected bill, which dialog is open and the pending delete)
    is the state of the class. */
module BillsTab {
  import opened Wrappers
  import opened Domain
  import opened Tables
  import opened ListEdits
  import opened BillFilters

  // ---- the lists the callbacks hand over ----

  /** The global add dialog's `onAdd`: `bill` appended to subscription `i`. */
  function AddBillAt(subs: seq<Subscription>, i: nat, bill: ElectricityBill): (r: seq<Subscription>)
    requires i < |subs|
    ensures |r| == |subs|
    ensures r[i].name == subs[i].name && r[i].electricityBills == subs[i].electricityBills + [bill]
    ensures forall j :: 0 <= j < |subs| && j != i ==> r[j] == subs[j]
  {
    SetAt(subs, i, subs[i].(electricityBills := subs[i].electricityBills + [bill]))
  }

  /** The edit dialog's `onSave`: bill `j` of subscription `i` replaced. */
  function EditBillAt(subs: seq<Subscription>, i: nat, j: nat, bill: ElectricityBill): (r: seq<Subscription>)
    requires i < |subs| && j < |subs[i].electricityBills|
    ensures |r| == |subs|
    ensures r[i].name == subs[i].name && |r[i].electricityBills| == |subs[i].electricityBills|
    ensures r[i].electricityBills[j] == bill
    ensures forall k :: 0 <= k < |subs[i].electricityBills| && k != j ==>
      r[i].electricityBills[k] == subs[i].electricityBills[k]
    ensures forall k :: 0 <= k < |subs| && k != i ==> r[k] == subs[k]
  {
    var bills := SetAt(subs[i].electricityBills, j, bill);
    SetAt(subs, i, subs[i].(electricityBills := bills))
  }

  /** The pending `deleteAction`: bill `j` of subscription `i` removed, the
      other bills in their order. */
  function RemoveBillAt(subs: seq<Subscription>, i: nat, j: nat): (r: seq<Subscription>)
    requires i < |subs| && j < |subs[i].electricityBills|
    ensures |r| == |subs|
    ensures r[i].name == subs[i].name
    ensures multiset(r[i].electricityBills) + multiset{subs[i].electricityBills[j]}
      == multiset(subs[i].electricityBills)
    ensures r[i].electricityBills == subs[i].electricityBills[..j] + subs[i].electricityBills[j + 1..]
    ensures forall k :: 0 <= k < |subs| && k != i ==> r[k] == subs[k]
  {
    var bills := RemoveAt(subs[i].electricityBills, j);
    assert bills == subs[i].electricityBills[..j] + subs[i].electricityBills[j + 1..];
    SetAt(subs, i, subs[i].(electricityBills := bills))
  }

  /** Deleting the bill just added gives the list back. */
  lemma RemoveAddedBill(subs: seq<Subscription>, i: nat, bill: ElectricityBill)
    requires i < |subs|
    ensures RemoveBillAt(AddBillAt(subs, i, bill), i, |subs[i].electricityBills|) == subs
  {
    var a := AddBillAt(subs, i, bill);
    var r := RemoveBillAt(a, i, |subs[i].electricityBills|);
    assert a[i].electricityBills[..|subs[i].electricityBills|] == subs[i].electricityBills;
    assert r[i] == subs[i];
  }

  /** Saving a bill unchanged gives the list back. */
  lemma EditUnchanged(subs: seq<Subscription>, i: nat, j: nat)
    requires i < |subs| && j < |subs[i].electricityBills|
    ensures EditBillAt(subs, i, j, subs[i].electricityBills[j]) == subs
  {
    var r := EditBillAt(subs, i, j, subs[i].electricityBills[j]);
    assert r[i].electricityBills == subs[i].electricityBills;
    assert r[i] == subs[i];
  }

  /** Of two saves to the same bill, the later one wins. */
  lemma EditTwice(subs: seq<Subscription>, i: nat, j: nat, b1: ElectricityBill, b2: ElectricityBill)
    requires i < |subs| && j < |subs[i].electricityBills|
    ensures EditBillAt(EditBillAt(subs, i, j, b1), i, j, b2) == EditBillAt(subs, i, j, b2)
  {
    var r1 := EditBillAt(EditBillAt(subs, i, j, b1), i, j, b2);
    var r2 := EditBillAt(subs, i, j, b2);
    assert r1[i].electricityBills == r2[i].electricityBills;
    assert r1[i] == r2[i];
  }

  // ---- what the tab shows ----

  /** The text of an empty bill list: "No bills added yet" when the
      subscription has none, otherwise the filter hides them all. */
  function BillsEmptyText(subs: seq<Subscription>, tab: nat): (s: string)
    requires tab < |subs|
    ensures s == "No bills added yet" <==> subs[tab].electricityBills == []
    ensures s == "No bills added yet" || s == "No bills match the current filter"
  {
    if subs[tab].electricityBills == [] then "No bills added yet" else "No bills match the current filter"
  }

  /** When the shown list is empty, the "filter" text appears exactly when
      the subscription has bills and the filter rejects every one. */
  lemma EmptyTextMeans(subs: seq<Subscription>, f: BillFilter, tab: nat)
    requires tab < |subs| && FilterSubscriptions(subs, f)[tab].electricityBills == []
    ensures BillsEmptyText(subs, tab) == "No bills match the current filter" <==>
      subs[tab].electricityBills != [] && forall b :: b in subs[tab].electricityBills ==> !Matches(f, b)
  {
  }

  /** A shown bill is found in the unfiltered list: `indexOf` gives the
      first position holding it, never -1. */
  lemma ShownBillFound(subs: seq<Subscription>, f: BillFilter, tab: nat, bill: ElectricityBill)
    requires tab < |subs| && bill in FilterSubscriptions(subs, f)[tab].electricityBills
    ensures 0 <= IndexOf(subs[tab].electricityBills, bill) < |subs[tab].electricityBills|
    ensures subs[tab].electricityBills[IndexOf(subs[tab].electricityBills, bill)] == bill
  {
  }

  class ElectricityBillsTab {
    var showEditBillDialog: bool
    var showDeleteConfirmation: bool
    var showDeleteAllConfirmation: bool
    var selectedSubscriptionIndex: int
    var selectedBillIndex: int
    /** The pending `deleteAction`, as the subscription list its closure
        captured; it reads the two selected indices when it runs. */
    var deleteAction: Option<seq<Subscription>>
    var selectedSubscriptionTab: int

    /** The selected indices point at a bill of `subs`. */
    predicate Selects(subs: seq<Subscription>)
      reads this
    {
      0 <= selectedSubscriptionIndex < |subs|
      && 0 <= selectedBillIndex < |subs[selectedSubscriptionIndex].electricityBills|
    }

    /** A pending delete belongs to the open confirmation and points at a
        bill of the list it captured; the edit dialog and the confirmation,
        both modal, are never open together. */
    predicate Valid()
      reads this
    {
      0 <= selectedSubscriptionTab
      && (deleteAction.Some? ==> showDeleteConfirmation && Selects(deleteAction.value))
      && !(showEditBillDialog && showDeleteConfirmation)
    }

    constructor ()
      ensures !showEditBillDialog && !showDeleteConfirmation && !showDeleteAllConfirmation
      ensures selectedSubscriptionIndex == 0 && selectedBillIndex == -1
      ensures deleteAction == None && selectedSubscriptionTab == 0
      ensures Valid()
    {
      showEditBillDialog := false;
      showDeleteConfirmation := false;
      showDeleteAllConfirmation := false;
      selectedSubscriptionIndex := 0;
      selectedBillIndex := -1;
      deleteAction := None;
      selectedSubscriptionTab := 0;
    }

    /** The tab row's selected index: the remembered tab, at most the last. */
    function ShownTab(count: nat): (t: int)
      reads this
      ensures t <= count - 1
      ensures t == selectedSubscriptionTab || t == count - 1
    {
      if selectedSubscriptionTab <= count - 1 then selectedSubscriptionTab else count - 1
    }

    /** A tab clicked. */
    method SelectTab(index: nat)
      requires Valid()
      modifies this
      ensures selectedSubscriptionTab == index
      ensures showEditBillDialog == old(showEditBillDialog) && showDeleteConfirmation == old(showDeleteConfirmation)
      ensures showDeleteAllConfirmation == old(showDeleteAllConfirmation) && deleteAction == old(deleteAction)
      ensures selectedSubscriptionIndex == old(selectedSubscriptionIndex)
      ensures selectedBillIndex == old(selectedBillIndex)
      ensures Valid()
    {
      selectedSubscriptionTab := index;
    }

    /** A remembered tab beyond the list (a subscription was deleted) moves
        to the last one, so a nonempty list always has its tab in range. */
    method ClampTab(count: nat)
      requires Valid()
      modifies this
      ensures selectedSubscriptionTab == if old(selectedSubscriptionTab) >= count then
        (if count - 1 >= 0 then count - 1 else 0) else old(selectedSubscriptionTab)
      ensures count > 0 ==> selectedSubscriptionTab < count
      ensures count > 0 ==> selectedSubscriptionTab == ShownTab(count)
      ensures showEditBillDialog == old(showEditBillDialog) && showDeleteConfirmation == old(showDeleteConfirmation)
      ensures showDeleteAllConfirmation == old(showDeleteAllConfirmation) && deleteAction == old(deleteAction)
      ensures selectedSubscriptionIndex == old(selectedSubscriptionIndex)
      ensures selectedBillIndex == old(selectedBillIndex)
      ensures Valid()
    {
      if selectedSubscriptionTab >= count {
        selectedSubscriptionTab := if count - 1 >= 0 then count - 1 else 0;
      }
    }

    /** A shown bill's edit button: the edit dialog opens on that bill of
        the unfiltered list. */
    method OnEditClick(subs: seq<Subscription>, f: BillFilter, bill: ElectricityBill)
      requires Valid() && !showDeleteConfirmation
      requires selectedSubscriptionTab < |subs|
      requires bill in FilterSubscriptions(subs, f)[selectedSubscriptionTab].electricityBills
      modifies this
      ensures selectedSubscriptionIndex == old(selectedSubscriptionTab)
      ensures selectedBillIndex == IndexOf(subs[selectedSubscriptionIndex].electricityBills, bill)
      ensures showEditBillDialog
      ensures Selects(subs) && subs[selectedSubscriptionIndex].electricityBills[selectedBillIndex] == bill
      ensures showDeleteConfirmation == old(showDeleteConfirmation)
      ensures showDeleteAllConfirmation == old(showDeleteAllConfirmation) && deleteAction == old(deleteAction)
      ensures selectedSubscriptionTab == old(selectedSubscriptionTab)
      ensures Valid()
    {
      ShownBillFound(subs, f, selectedSubscriptionTab, bill);
      selectedSubscriptionIndex := selectedSubscriptionTab;
      selectedBillIndex := IndexOf(subs[selectedSubscriptionTab].electricityBills, bill);
      showEditBillDialog := true;
    }

    /** A shown bill's delete button: the confirmation opens with a pending
        delete of that bill of the unfiltered list. */
    method OnDeleteClick(subs: seq<Subscription>, f: BillFilter, bill: ElectricityBill)
      requires Valid() && !showEditBillDialog
      requires selectedSubscriptionTab < |subs|
      requires bill in FilterSubscriptions(subs, f)[selectedSubscriptionTab].electricityBills
      modifies this
      ensures selectedSubscriptionIndex == old(selectedSubscriptionTab)
      ensures selectedBillIndex == IndexOf(subs[selectedSubscriptionIndex].electricityBills, bill)
      ensures deleteAction == Some(subs) && showDeleteConfirmation
      ensures Selects(subs) && subs[selectedSubscriptionIndex].electricityBills[selectedBillIndex] == bill
      ensures showEditBillDialog == old(showEditBillDialog)
      ensures showDeleteAllConfirmation == old(showDeleteAllConfirmation)
      ensures selectedSubscriptionTab == old(selectedSubscriptionTab)
      ensures Valid()
    {
      ShownBillFound(subs, f, selectedSubscriptionTab, bill);
      selectedSubscriptionIndex := selectedSubscriptionTab;
      selectedBillIndex := IndexOf(subs[selectedSubscriptionTab].electricityBills, bill);
      deleteAction := Some(subs);
      showDeleteConfirmation := true;
    }

    /** The confirmation's "confirm": the pending delete, if any, runs and
        its list is handed over; the dialog closes with nothing pending. */
    method ConfirmDelete() returns (r: Option<seq<Subscription>>)
      requires Valid()
      modifies this
      ensures r == if old(deleteAction).Some? then
        Some(RemoveBillAt(old(deleteAction).value, old(selectedSubscriptionIndex), old(selectedBillIndex)))
        else None
      ensures !showDeleteConfirmation && deleteAction == None
      ensures showEditBillDialog == old(showEditBillDialog)
      ensures showDeleteAllConfirmation == old(showDeleteAllConfirmation)
      ensures selectedSubscriptionIndex == old(selectedSubscriptionIndex)
      ensures selectedBillIndex == old(selectedBillIndex)
      ensures selectedSubscriptionTab == old(selectedSubscriptionTab)
      ensures Valid()
    {
      r := None;
      if deleteAction.Some? {
        r := Some(RemoveBillAt(deleteAction.value, selectedSubscriptionIndex, selectedBillIndex));
      }
      showDeleteConfirmation := false;
      deleteAction := None;
    }

    /** The confirmation's "dismiss": nothing is handed over. */
    method DismissDelete()
      requires Valid()
      modifies this
      ensures !showDeleteConfirmation && deleteAction == None
      ensures showEditBillDialog == old(showEditBillDialog)
      ensures showDeleteAllConfirmation == old(showDeleteAllConfirmation)
      ensures selectedSubscriptionIndex == old(selectedSubscriptionIndex)
      ensures selectedBillIndex == old(selectedBillIndex)
      ensures selectedSubscriptionTab == old(selectedSubscriptionTab)
      ensures Valid()
    {
      showDeleteConfirmation := false;
      deleteAction := None;
    }

    /** The edit dialog's "save": the selected bill replaced in the current
        list, then the dialog closes and the selection is cleared. The dialog
        is only composed when the selection points at a bill of `subs`. */
    method SaveEdit(subs: seq<Subscription>, updated: ElectricityBill) returns (r: seq<Subscription>)
      requires Valid() && showEditBillDialog && Selects(subs)
      modifies this
      ensures r == EditBillAt(subs, old(selectedSubscriptionIndex), old(selectedBillIndex), updated)
      ensures !showEditBillDialog && selectedSubscriptionIndex == -1 && selectedBillIndex == -1
      ensures showDeleteConfirmation == old(showDeleteConfirmation) && deleteAction == old(deleteAction)
      ensures showDeleteAllConfirmation == old(showDeleteAllConfirmation)
      ensures selectedSubscriptionTab == old(selectedSubscriptionTab)
      ensures Valid()
    {
      r := EditBillAt(subs, selectedSubscriptionIndex, selectedBillIndex, updated);
      showEditBillDialog := false;
      selectedSubscriptionIndex := -1;
      selectedBillIndex := -1;
    }

    /** The edit dialog's "dismiss": it closes, the selection is cleared. */
    method DismissEdit()
      requires Valid() && showEditBillDialog
      modifies this
      ensures !showEditBillDialog && selectedSubscriptionIndex == -1 && selectedBillIndex == -1
      ensures showDeleteConfirmation == old(showDeleteConfirmation) && deleteAction == old(deleteAction)
      ensures showDeleteAllConfirmation == old(showDeleteAllConfirmation)
      ensures selectedSubscriptionTab == old(selectedSubscriptionTab)
      ensures Valid()
    {
      showEditBillDialog := false;
      selectedSubscriptionIndex := -1;
      selectedBillIndex := -1;
    }

    /** The "Delete All" button: its confirmation opens. */
    method OnDeleteAllClick()
      requires Valid()
      modifies this
      ensures showDeleteAllConfirmation
      ensures showEditBillDialog == old(showEditBillDialog) && showDeleteConfirmation == old(showDeleteConfirmation)
      ensures deleteAction == old(deleteAction)
      ensures selectedSubscriptionIndex == old(selectedSubscriptionIndex)
      ensures selectedBillIndex == old(selectedBillIndex)
      ensures selectedSubscriptionTab == old(selectedSubscriptionTab)
      ensures Valid()
    {
      showDeleteAllConfirmation := true;
    }

    /** The "Delete All" confirmation's "confirm": every bill the filter
        matches is removed, and the dialog closes. */
    method ConfirmDeleteAll(subs: seq<Subscription>, f: BillFilter) returns (r: seq<Subscription>)
      requires Valid()
      modifies this
      ensures r == DeleteAllMatching(subs, f)
      ensures !showDeleteAllConfirmation
      ensures showEditBillDialog == old(showEditBillDialog) && showDeleteConfirmation == old(showDeleteConfirmation)
      ensures deleteAction == old(deleteAction)
      ensures selectedSubscriptionIndex == old(selectedSubscriptionIndex)
      ensures selectedBillIndex == old(selectedBillIndex)
      ensures selectedSubscriptionTab == old(selectedSubscriptionTab)
      ensures Valid()
    {
      r := DeleteAllMatching(subs, f);
      showDeleteAllConfirmation := false;
    }

    method DismissDeleteAll()
      requires Valid()
      modifies this
      ensures !showDeleteAllConfirmation
      ensures showEditBillDialog == old(showEditBillDialog) && showDeleteConfirmation == old(showDeleteConfirmation)
      ensures deleteAction == old(deleteAction)
      ensures selectedSubscriptionIndex == old(selectedSubscriptionIndex)
      ensures selectedBillIndex == old(selectedBillIndex)
      ensures selectedSubscriptionTab == old(selectedSubscriptionTab)
      ensures Valid()
    {
      showDeleteAllConfirmation := false;
    }
  }
}
