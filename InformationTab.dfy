/** The information tab of the property screen: the rent-duration labels,
    and the dialogs that add and delete subscriptions and add, edit and
    delete shareholders. Both lists are hoisted, so each confirming callback
    returns the list it hands to `onSubscriptionsChange` or
    `onShareholdersChange`; the class holds the dialog flags and the pending
    targets the tab remembers. */
module InformationTab {
  import opened Wrappers
  import opened Domain
  import opened Converters
  import opened ListEdits
  import opened Text

  /** The radio button's label: the constant's name lowercased, then its
      first letter capitalised. */
  function DurationLabel(d: RentDuration): (s: string)
    ensures d == MONTHLY ==> s == "Monthly"
    ensures d == YEARLY ==> s == "Yearly"
  {
    var lower := Lowercase(RentDurationName(d));
    assert d == MONTHLY ==> lower == "monthly";
    assert d == YEARLY ==> lower == "yearly";
    CapitalizeFirst(lower)
  }

  /** The two labels differ, so the radio buttons are told apart. */
  lemma DurationLabelsDistinct()
    ensures DurationLabel(MONTHLY) != DurationLabel(YEARLY)
  {
  }

  /** Everything the tab remembers, as one value. */
  datatype TabState = TabState(
    showAddSubscriptionDialog: bool,
    showDeleteSubscriptionConfirmation: bool,
    subscriptionToDelete: int,
    showAddShareholderDialog: bool,
    showEditShareholderDialog: bool,
    showDeleteShareholderConfirmation: bool,
    shareholderToEdit: Option<Shareholder>,
    shareholderToDelete: int,
    showDeletePropertyConfirmation: bool)

  class InformationTab {
    var showAddSubscriptionDialog: bool
    var showDeleteSubscriptionConfirmation: bool
    var subscriptionToDelete: int
    var showAddShareholderDialog: bool
    var showEditShareholderDialog: bool
    var showDeleteShareholderConfirmation: bool
    var shareholderToEdit: Option<Shareholder>
    var shareholderToDelete: int
    var showDeletePropertyConfirmation: bool

    function State(): TabState
      reads this
    {
      TabState(showAddSubscriptionDialog, showDeleteSubscriptionConfirmation, subscriptionToDelete,
        showAddShareholderDialog, showEditShareholderDialog, showDeleteShareholderConfirmation,
        shareholderToEdit, shareholderToDelete, showDeletePropertyConfirmation)
    }

    /** A confirmation or the edit dialog is open exactly while it has a
        target; a pending index is -1 when there is none. */
    predicate Valid()
      reads this
    {
      -1 <= subscriptionToDelete && -1 <= shareholderToDelete
      && (showDeleteSubscriptionConfirmation <==> subscriptionToDelete >= 0)
      && (showDeleteShareholderConfirmation <==> shareholderToDelete >= 0)
      && (showEditShareholderDialog <==> shareholderToEdit.Some?)
    }

    constructor ()
      ensures State() == TabState(false, false, -1, false, false, false, None, -1, false)
      ensures Valid()
    {
      showAddSubscriptionDialog := false;
      showDeleteSubscriptionConfirmation := false;
      subscriptionToDelete := -1;
      showAddShareholderDialog := false;
      showEditShareholderDialog := false;
      showDeleteShareholderConfirmation := false;
      shareholderToEdit := None;
      shareholderToDelete := -1;
      showDeletePropertyConfirmation := false;
    }

    // ---- subscriptions ----

    method OpenAddSubscription()
      requires Valid()
      modifies this
      ensures State() == old(State()).(showAddSubscriptionDialog := true)
      ensures Valid()
    {
      showAddSubscriptionDialog := true;
    }

    /** The add dialog's `onAdd`: the new subscription appended, the others
        kept in place; the dialog closes. */
    method AddSubscription(subs: seq<Subscription>, s: Subscription) returns (r: seq<Subscription>)
      requires Valid()
      modifies this
      ensures |r| == |subs| + 1 && r[..|subs|] == subs && r[|subs|] == s
      ensures State() == old(State()).(showAddSubscriptionDialog := false)
      ensures Valid()
    {
      r := subs + [s];
      showAddSubscriptionDialog := false;
    }

    method DismissAddSubscription()
      requires Valid()
      modifies this
      ensures State() == old(State()).(showAddSubscriptionDialog := false)
      ensures Valid()
    {
      showAddSubscriptionDialog := false;
    }

    /** A subscription's delete button. */
    method RequestDeleteSubscription(subs: seq<Subscription>, index: nat)
      requires Valid() && index < |subs|
      modifies this
      ensures State() == old(State()).(subscriptionToDelete := index, showDeleteSubscriptionConfirmation := true)
      ensures Valid()
    {
      subscriptionToDelete := index;
      showDeleteSubscriptionConfirmation := true;
    }

    /** The confirmation's "confirm": the pending subscription removed, the
        others in order; then nothing is pending. The confirmation is only
        composed while its index points into the list (its message reads
        that subscription's bills). */
    method ConfirmDeleteSubscription(subs: seq<Subscription>) returns (r: seq<Subscription>)
      requires Valid() && showDeleteSubscriptionConfirmation && subscriptionToDelete < |subs|
      modifies this
      ensures r == RemoveAt(subs, old(subscriptionToDelete))
      ensures State() == old(State()).(showDeleteSubscriptionConfirmation := false, subscriptionToDelete := -1)
      ensures Valid()
    {
      r := RemoveAt(subs, subscriptionToDelete);
      showDeleteSubscriptionConfirmation := false;
      subscriptionToDelete := -1;
    }

    method DismissDeleteSubscription()
      requires Valid()
      modifies this
      ensures State() == old(State()).(showDeleteSubscriptionConfirmation := false, subscriptionToDelete := -1)
      ensures Valid()
    {
      showDeleteSubscriptionConfirmation := false;
      subscriptionToDelete := -1;
    }

    // ---- shareholders ----

    method OpenAddShareholder()
      requires Valid()
      modifies this
      ensures State() == old(State()).(showAddShareholderDialog := true)
      ensures Valid()
    {
      showAddShareholderDialog := true;
    }

    /** The add dialog's `onAdd`: the new shareholder appended. */
    method AddShareholder(holders: seq<Shareholder>, h: Shareholder) returns (r: seq<Shareholder>)
      requires Valid()
      modifies this
      ensures |r| == |holders| + 1 && r[..|holders|] == holders && r[|holders|] == h
      ensures State() == old(State()).(showAddShareholderDialog := false)
      ensures Valid()
    {
      r := holders + [h];
      showAddShareholderDialog := false;
    }

    method DismissAddShareholder()
      requires Valid()
      modifies this
      ensures State() == old(State()).(showAddShareholderDialog := false)
      ensures Valid()
    {
      showAddShareholderDialog := false;
    }

    /** A shareholder's edit button: the dialog opens on that shareholder. */
    method RequestEditShareholder(h: Shareholder)
      requires Valid()
      modifies this
      ensures State() == old(State()).(shareholderToEdit := Some(h), showEditShareholderDialog := true)
      ensures Valid()
    {
      shareholderToEdit := Some(h);
      showEditShareholderDialog := true;
    }

    /** The edit dialog's "save": the first shareholder equal to the one
        being edited is replaced and the list handed over; when none is
        equal nothing is handed over. The dialog then closes. */
    method SaveShareholder(holders: seq<Shareholder>, updated: Shareholder) returns (r: Option<seq<Shareholder>>)
      requires Valid() && showEditShareholderDialog
      modifies this
      ensures r == ReplaceFirst(holders, old(shareholderToEdit).value, updated)
      ensures r.None? <==> old(shareholderToEdit).value !in holders
      ensures State() == old(State()).(showEditShareholderDialog := false, shareholderToEdit := None)
      ensures Valid()
    {
      r := ReplaceFirst(holders, shareholderToEdit.value, updated);
      showEditShareholderDialog := false;
      shareholderToEdit := None;
    }

    method DismissEditShareholder()
      requires Valid()
      modifies this
      ensures State() == old(State()).(showEditShareholderDialog := false, shareholderToEdit := None)
      ensures Valid()
    {
      showEditShareholderDialog := false;
      shareholderToEdit := None;
    }

    /** A shareholder's delete button. */
    method RequestDeleteShareholder(holders: seq<Shareholder>, index: nat)
      requires Valid() && index < |holders|
      modifies this
      ensures State() == old(State()).(shareholderToDelete := index, showDeleteShareholderConfirmation := true)
      ensures Valid()
    {
      shareholderToDelete := index;
      showDeleteShareholderConfirmation := true;
    }

    /** The confirmation's "confirm": the pending shareholder removed, the
        others in order. The confirmation is only composed while its index
        points into the list (its message reads that shareholder's name). */
    method ConfirmDeleteShareholder(holders: seq<Shareholder>) returns (r: seq<Shareholder>)
      requires Valid() && showDeleteShareholderConfirmation && shareholderToDelete < |holders|
      modifies this
      ensures r == RemoveAt(holders, old(shareholderToDelete))
      ensures State() == old(State()).(showDeleteShareholderConfirmation := false, shareholderToDelete := -1)
      ensures Valid()
    {
      r := RemoveAt(holders, shareholderToDelete);
      showDeleteShareholderConfirmation := false;
      shareholderToDelete := -1;
    }

    method DismissDeleteShareholder()
      requires Valid()
      modifies this
      ensures State() == old(State()).(showDeleteShareholderConfirmation := false, shareholderToDelete := -1)
      ensures Valid()
    {
      showDeleteShareholderConfirmation := false;
      shareholderToDelete := -1;
    }

    // ---- the property ----

    /** The delete-property button, shown only while editing a stored
        property with a delete callback. */
    method RequestDeleteProperty()
      requires Valid()
      modifies this
      ensures State() == old(State()).(showDeletePropertyConfirmation := true)
      ensures Valid()
    {
      showDeletePropertyConfirmation := true;
    }

    /** The confirmation's "confirm": the property is handed to
        `onDeleteProperty` and the dialog closes. */
    method ConfirmDeleteProperty(property: Property) returns (r: Property)
      requires Valid() && showDeletePropertyConfirmation
      modifies this
      ensures r == property
      ensures State() == old(State()).(showDeletePropertyConfirmation := false)
      ensures Valid()
    {
      r := property;
      showDeletePropertyConfirmation := false;
    }

    method DismissDeleteProperty()
      requires Valid()
      modifies this
      ensures State() == old(State()).(showDeletePropertyConfirmation := false)
      ensures Valid()
    {
      showDeletePropertyConfirmation := false;
    }
  }

  // ---- the list edits, as values ----

  /** Removing the element just appended gives the list back. */
  lemma RemoveAppended<T>(s: seq<T>, x: T)
    ensures RemoveAt(s + [x], |s|) == s
  {
    assert (s + [x])[..|s|] == s;
  }

  /** Deleting at `i` keeps every other element, in order: the element at
      `j` moves to `j - 1` exactly when it was after `i`. */
  lemma RemoveKeepsOthers<T>(s: seq<T>, i: nat, j: nat)
    requires i < |s| && j < |s| && j != i
    ensures var r := RemoveAt(s, i); (if j < i then r[j] else r[j - 1]) == s[j]
  {
  }

  /** An edit that finds its shareholder exchanges one copy of it for the
      updated one: the list keeps its length and its other members. */
  lemma EditReplacesOne(holders: seq<Shareholder>, target: Shareholder, updated: Shareholder)
    requires target in holders
    ensures ReplaceFirst(holders, target, updated).Some?
    ensures var r := ReplaceFirst(holders, target, updated).value;
      |r| == |holders| && updated in r
      && multiset(r) + multiset{target} == multiset(holders) + multiset{updated}
  {
    var i := IndexOf(holders, target);
    var r := holders[i := updated];
    assert ReplaceFirst(holders, target, updated) == Some(r);
    assert r[i] == updated;
    assert holders == holders[..i] + [target] + holders[i + 1..];
    assert r == holders[..i] + [updated] + holders[i + 1..];
  }
}
