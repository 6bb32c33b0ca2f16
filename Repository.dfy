/** `PropertyRepository`: the app's one gateway to the database. Its writes
    call the DAO writes one row at a time, in the loops the repository runs;
    each write is proved to leave the database in the state the matching
    fold of `Effects` describes, so what is proved there and in
    `ReadAfterWrite` holds of the object. A DAO write that throws ends the
    repository call: the rows written before it stay, and `Err` is what
    the call throws. Its reads return the `Reads` functions of the current
    tables. */
module Repository {
  import opened Wrappers
  import opened Domain
  import opened Entities
  import opened Converters
  import opened Mappers
  import opened Tables
  import opened Store
  import opened Effects
  import opened Reads
  import opened ReadAfterWrite
  import opened Database

  class PropertyRepository {
    const database: PropertyDatabase

    constructor (database: PropertyDatabase)
      ensures this.database == database
    {
      this.database := database;
    }

    // ---- property operations ----

    /** `getAllProperties`, one snapshot of the flow. */
    method GetAllProperties() returns (r: Result<seq<Property>, DecodeError>)
      ensures r == AllProperties(database.State())
      ensures UniqueKeys(database.State().properties, PropertyKey) && r.Ok? ==>
        forall i :: 0 <= i < |r.value| ==>
          CompletePropertyById(database.State(), database.State().properties[i].id) == Ok(Some(r.value[i]))
    {
      r := AllProperties(database.State());
      if UniqueKeys(database.State().properties, PropertyKey) { AllPropertiesById(database.State()); }
    }

    /** `getCompletePropertyById`: `Ok(None)` when no row has the id. */
    method GetCompletePropertyById(id: string) returns (r: Result<Option<Property>, DecodeError>)
      ensures r == CompletePropertyById(database.State(), id)
      ensures r == Ok(None) <==> Store.GetPropertyById(database.State(), id).None?
    {
      r := CompletePropertyById(database.State(), id);
    }

    /** `getPropertyById`, which delegates to `getCompletePropertyById`. */
    method GetPropertyById(id: string) returns (r: Result<Option<Property>, DecodeError>)
      ensures r == CompletePropertyById(database.State(), id)
    {
      r := GetCompletePropertyById(id);
    }

    /** `insertProperty`: the property row, then every subscription with its
        bills, then every shareholder. On a valid database it succeeds, the
        property reads back as written unless a stored row with its id was
        replaced without cascading, and every other property reads as before. */
    method InsertProperty(p: Property) returns (r: Result<(), DbError>)
      modifies database
      ensures Outcome(database.State(), r) == InsertFullProperty(old(database.State()), p)
      ensures old(Valid(database.State())) ==> r.Ok? && Valid(database.State())
      ensures old(Valid(database.State()))
        && (database.replaceCascades || !HasKey(old(database.State()).properties, PropertyKey, p.id))
        ==> CompletePropertyById(database.State(), p.id) == Ok(Some(AsReadBack(p)))
      ensures old(Valid(database.State())) ==> forall q :: q != p.id ==>
        CompletePropertyById(database.State(), q) == CompletePropertyById(old(database.State()), q)
    {
      ghost var d0 := database.State();
      database.InsertProperty(ToPropertyEntity(p));
      r := InsertSubscriptions(p.id, p.subscriptions);
      if r.Ok? { r := InsertShareholders(p.id, p.shareholders); }
      if Valid(d0) {
        InsertFullPropertyAppends(d0, p);
        if database.replaceCascades || !HasKey(d0.properties, PropertyKey, p.id) {
          InsertFullPropertyReadBack(d0, p);
        }
        forall q | q != p.id
          ensures CompletePropertyById(database.State(), q) == CompletePropertyById(d0, q)
        {
          InsertFullPropertyOthers(d0, p, q);
        }
      }
    }

    /** `updateProperty`: the row updated, the property's subscriptions (with
        their bills) and shareholders deleted, then the lists inserted
        afresh. On a valid database a stored property then reads back as
        written; an unknown one leaves every table as it was. */
    method UpdateProperty(p: Property) returns (r: Result<(), DbError>)
      modifies database
      ensures Outcome(database.State(), r) == UpdateFullProperty(old(database.State()), p)
      ensures old(Valid(database.State())) ==> Valid(database.State())
      ensures old(Valid(database.State())) && HasKey(old(database.State()).properties, PropertyKey, p.id) ==>
        r.Ok? && CompletePropertyById(database.State(), p.id) == Ok(Some(AsReadBack(p)))
      ensures old(Valid(database.State())) && !HasKey(old(database.State()).properties, PropertyKey, p.id) ==>
        database.State() == old(database.State()) && (r.Ok? <==> p.subscriptions == [] && p.shareholders == [])
      ensures old(Valid(database.State())) ==> forall q :: q != p.id ==>
        CompletePropertyById(database.State(), q) == CompletePropertyById(old(database.State()), q)
    {
      ghost var d0 := database.State();
      database.UpdateProperty(ToPropertyEntity(p));
      database.DeleteSubscriptionsByPropertyId(p.id);
      database.DeleteShareholdersByPropertyId(p.id);
      r := InsertSubscriptions(p.id, p.subscriptions);
      if r.Ok? { r := InsertShareholders(p.id, p.shareholders); }
      if Valid(d0) {
        if HasKey(d0.properties, PropertyKey, p.id) {
          UpdateFullPropertyReplaces(d0, p);
          UpdateFullPropertyReadBack(d0, p);
        } else {
          UpdateFullPropertyMissing(d0, p);
        }
        forall q | q != p.id
          ensures CompletePropertyById(database.State(), q) == CompletePropertyById(d0, q)
        {
          UpdateFullPropertyOthers(d0, p, q);
        }
      }
    }

    /** `deleteProperty`: the row removed, its children with it. */
    method DeleteProperty(propertyId: string)
      modifies database
      ensures database.State() == DeletePropertyById(old(database.State()), propertyId)
      ensures old(Valid(database.State())) ==> Valid(database.State())
      ensures old(Valid(database.State())) ==> CompletePropertyById(database.State(), propertyId) == Ok(None)
      ensures old(Valid(database.State())) ==> forall q :: q != propertyId ==>
        CompletePropertyById(database.State(), q) == CompletePropertyById(old(database.State()), q)
    {
      ghost var d0 := database.State();
      database.DeletePropertyById(propertyId);
      if Valid(d0) {
        forall q ensures q != propertyId ==> CompletePropertyById(database.State(), q) == CompletePropertyById(d0, q) {
          DeletePropertyRead(d0, propertyId, q);
        }
      }
    }

    // ---- the loops of insertProperty and updateProperty ----

    /** `property.subscriptions.forEach { … }`, stopping at the first throw. */
    method InsertSubscriptions(pid: string, subs: seq<Subscription>) returns (r: Result<(), DbError>)
      modifies database
      ensures Outcome(database.State(), r) == AddSubscriptions(old(database.State()), pid, subs)
    {
      hide *;
      ghost var d0 := database.State();
      var i := 0;
      r := Ok(());
      while i < |subs|
        invariant 0 <= i <= |subs| && r == Ok(())
        invariant AddSubscriptions(d0, pid, subs) == AddSubscriptions(database.State(), pid, subs[i..])
      {
        ghost var before := database.State();
        assert subs[i..][0] == subs[i] && subs[i..][1..] == subs[i + 1..];
        AddSubscriptionsStep(before, pid, subs[i..]);
        var step := AddSubscriptionToProperty(pid, subs[i]);
        if step.Err? {
          r := step;
          return;
        }
        i := i + 1;
      }
      assert subs[i..] == [];
      AddSubscriptionsEmpty(database.State(), pid);
    }

    /** `property.shareholders.forEach { insertShareholder(…) }`, stopping at the first throw. */
    method InsertShareholders(pid: string, holders: seq<Shareholder>) returns (r: Result<(), DbError>)
      modifies database
      ensures Outcome(database.State(), r) == AddShareholders(old(database.State()), pid, holders)
    {
      hide *;
      ghost var d0 := database.State();
      var i := 0;
      r := Ok(());
      while i < |holders|
        invariant 0 <= i <= |holders| && r == Ok(())
        invariant AddShareholders(d0, pid, holders) == AddShareholders(database.State(), pid, holders[i..])
      {
        ghost var before := database.State();
        assert holders[i..][0] == holders[i] && holders[i..][1..] == holders[i + 1..];
        AddShareholdersStep(before, pid, holders[i..]);
        var step := database.InsertShareholder(ToShareholderEntity(holders[i], pid));
        if step.Err? {
          r := step;
          return;
        }
        i := i + 1;
      }
      assert holders[i..] == [];
      AddShareholdersEmpty(database.State(), pid);
    }

    /** `subscription.electricityBills.forEach { insertBill(…) }`, stopping at the first throw. */
    method InsertBills(bills: seq<ElectricityBill>, sid: int) returns (r: Result<(), DbError>)
      modifies database
      ensures Outcome(database.State(), r) == AddBills(old(database.State()), bills, sid)
    {
      hide *;
      ghost var d0 := database.State();
      var i := 0;
      r := Ok(());
      while i < |bills|
        invariant 0 <= i <= |bills| && r == Ok(())
        invariant AddBills(d0, bills, sid) == AddBills(database.State(), bills[i..], sid)
      {
        ghost var before := database.State();
        assert bills[i..][0] == bills[i] && bills[i..][1..] == bills[i + 1..];
        AddBillsStep(before, bills[i..], sid);
        var step := database.InsertBill(ToElectricityBillEntity(bills[i], sid));
        if step.Err? {
          r := step;
          return;
        }
        i := i + 1;
      }
      assert bills[i..] == [];
      AddBillsEmpty(database.State(), sid);
    }

    // ---- subscription operations ----

    /** `addSubscriptionToProperty`: the row, then its bills under the key it
        was given. With the property stored in a valid database it succeeds
        and appends the rows under fresh keys; without it, it throws and
        changes nothing. */
    method AddSubscriptionToProperty(propertyId: string, subscription: Subscription) returns (r: Result<(), DbError>)
      modifies database
      ensures Outcome(database.State(), r) == AddSubscription(old(database.State()), propertyId, subscription)
      ensures old(Valid(database.State())) ==> Valid(database.State())
      ensures !HasKey(old(database.State()).properties, PropertyKey, propertyId) ==>
        r.Err? && database.State() == old(database.State())
      ensures old(Valid(database.State())) && HasKey(old(database.State()).properties, PropertyKey, propertyId) ==>
        r.Ok? && database.State() == WithSubscriptions(old(database.State()), propertyId, [subscription])
    {
      ghost var d0 := database.State();
      var ins := database.InsertSubscription(ToSubscriptionEntity(subscription, propertyId));
      if ins.Err? {
        r := Err(ConstraintViolation);
      } else {
        r := InsertBills(subscription.electricityBills, ins.value);
      }
      if Valid(d0) {
        AddSubscriptionValid(d0, propertyId, subscription);
        if HasKey(d0.properties, PropertyKey, propertyId) { AddSubscriptionAppends(d0, propertyId, subscription); }
      }
    }

    /** `getSubscriptionsForPropertyFlow`, one snapshot: the rows without their bills. */
    method GetSubscriptionsForPropertyFlow(propertyId: string) returns (r: seq<Subscription>)
      ensures r == SubscriptionsForPropertyFlow(database.State(), propertyId)
    {
      r := SubscriptionsForPropertyFlow(database.State(), propertyId);
    }

    // ---- electricity bill operations ----

    /** `addElectricityBill`: throws exactly when the subscription is not stored. */
    method AddElectricityBill(subscriptionId: int, bill: ElectricityBill) returns (r: Result<(), DbError>)
      modifies database
      ensures Outcome(database.State(), r) == AddBill(old(database.State()), subscriptionId, bill)
      ensures r.Err? <==> !HasKey(old(database.State()).subscriptions, SubscriptionKey, subscriptionId)
      ensures old(Valid(database.State())) ==> Valid(database.State())
    {
      ghost var d0 := database.State();
      r := database.InsertBill(ToElectricityBillEntity(bill, subscriptionId));
      if Valid(d0) { SingleWritesValid(d0); }
    }

    /** `updateElectricityBill`: the row with id `billId` rewritten; an
        unknown id changes nothing. */
    method UpdateElectricityBill(billId: int, bill: ElectricityBill, subscriptionId: int) returns (r: Result<(), DbError>)
      modifies database
      ensures Outcome(database.State(), r) == EditBill(old(database.State()), billId, bill, subscriptionId)
      ensures old(Valid(database.State())) ==> Valid(database.State())
      ensures !HasKey(old(database.State()).bills, BillKey, billId) ==> r.Ok? && database.State() == old(database.State())
      ensures HasKey(old(database.State()).bills, BillKey, billId) && HasKey(old(database.State()).subscriptions, SubscriptionKey, subscriptionId) ==>
        r.Ok? && (var row := GetBillById(database.State(), billId);
        row.Some? && row.value.subscriptionId == subscriptionId && ToElectricityBill(row.value) == Ok(bill))
      ensures HasKey(old(database.State()).bills, BillKey, billId) && HasKey(old(database.State()).subscriptions, SubscriptionKey, subscriptionId) ==>
        forall q :: q != billId ==> GetBillById(database.State(), q) == GetBillById(old(database.State()), q)
    {
      ghost var d0 := database.State();
      r := database.UpdateBill(ToElectricityBillEntity(bill, subscriptionId).(id := billId));
      if Valid(d0) { SingleWritesValid(d0); }
      if HasKey(d0.bills, BillKey, billId) && HasKey(d0.subscriptions, SubscriptionKey, subscriptionId) {
        EditBillReadBack(d0, billId, bill, subscriptionId);
      }
    }

    /** `deleteElectricityBill`: the row looked up first; an unknown id does nothing. */
    method DeleteElectricityBill(billId: int)
      modifies database
      ensures database.State() == RemoveBill(old(database.State()), billId)
      ensures GetBillById(database.State(), billId).None?
      ensures forall q :: q != billId ==> GetBillById(database.State(), q) == GetBillById(old(database.State()), q)
      ensures old(Valid(database.State())) ==> Valid(database.State())
    {
      ghost var d0 := database.State();
      var bill := Store.GetBillById(database.State(), billId);
      if bill.Some? {
        database.DeleteBill(bill.value);
      }
      if Valid(d0) { SingleWritesValid(d0); }
    }

    /** `getBillsByPropertyId`, one snapshot of the flow. */
    method GetBillsByPropertyId(propertyId: string) returns (r: Result<seq<ElectricityBill>, DecodeError>)
      ensures r == BillsByProperty(database.State(), propertyId)
    {
      r := BillsByProperty(database.State(), propertyId);
    }

    // ---- shareholder operations ----

    /** `addShareholderToProperty`: throws exactly when the property is not stored. */
    method AddShareholderToProperty(propertyId: string, shareholder: Shareholder) returns (r: Result<(), DbError>)
      modifies database
      ensures Outcome(database.State(), r) == AddShareholder(old(database.State()), propertyId, shareholder)
      ensures r.Err? <==> !HasKey(old(database.State()).properties, PropertyKey, propertyId)
      ensures old(Valid(database.State())) ==> Valid(database.State())
    {
      ghost var d0 := database.State();
      r := database.InsertShareholder(ToShareholderEntity(shareholder, propertyId));
      if Valid(d0) { SingleWritesValid(d0); }
    }

    /** `updateShareholder`: the row with id `shareholderId` rewritten; an
        unknown id changes nothing. */
    method UpdateShareholder(shareholderId: int, shareholder: Shareholder, propertyId: string) returns (r: Result<(), DbError>)
      modifies database
      ensures Outcome(database.State(), r) == EditShareholder(old(database.State()), shareholderId, shareholder, propertyId)
      ensures old(Valid(database.State())) ==> Valid(database.State())
      ensures !HasKey(old(database.State()).shareholders, ShareholderKey, shareholderId) ==>
        r.Ok? && database.State() == old(database.State())
      ensures HasKey(old(database.State()).shareholders, ShareholderKey, shareholderId) && HasKey(old(database.State()).properties, PropertyKey, propertyId) ==>
        r.Ok? && (var row := GetShareholderById(database.State(), shareholderId);
        row.Some? && row.value.propertyId == propertyId && ToShareholder(row.value) == Ok(shareholder))
      ensures HasKey(old(database.State()).shareholders, ShareholderKey, shareholderId) && HasKey(old(database.State()).properties, PropertyKey, propertyId) ==>
        forall q :: q != shareholderId ==> GetShareholderById(database.State(), q) == GetShareholderById(old(database.State()), q)
    {
      ghost var d0 := database.State();
      r := database.UpdateShareholder(ToShareholderEntity(shareholder, propertyId).(id := shareholderId));
      if Valid(d0) { SingleWritesValid(d0); }
      if HasKey(d0.shareholders, ShareholderKey, shareholderId) && HasKey(d0.properties, PropertyKey, propertyId) {
        EditShareholderReadBack(d0, shareholderId, shareholder, propertyId);
      }
    }

    /** `deleteShareholder`: the row looked up first; an unknown id does nothing. */
    method DeleteShareholder(shareholderId: int)
      modifies database
      ensures database.State() == RemoveShareholder(old(database.State()), shareholderId)
      ensures GetShareholderById(database.State(), shareholderId).None?
      ensures forall q :: q != shareholderId ==>
        GetShareholderById(database.State(), q) == GetShareholderById(old(database.State()), q)
      ensures old(Valid(database.State())) ==> Valid(database.State())
    {
      ghost var d0 := database.State();
      var holder := Store.GetShareholderById(database.State(), shareholderId);
      if holder.Some? {
        database.DeleteShareholder(holder.value);
      }
      if Valid(d0) { SingleWritesValid(d0); }
    }

    /** `getShareholdersForPropertyFlow`, one snapshot of the flow. */
    method GetShareholdersForPropertyFlow(propertyId: string) returns (r: Result<seq<Shareholder>, DecodeError>)
      ensures r == LoadShareholders(database.State(), propertyId)
    {
      r := LoadShareholders(database.State(), propertyId);
    }
  }
}
