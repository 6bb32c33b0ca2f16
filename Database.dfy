/** The Room database object: the four tables and their key counters are
    fields that the DAO writes update in place. Each write's new state is
    the matching function of `Store` applied to the old state, so every
    property proved there (what the write changes, what it leaves alone,
    the constraints it keeps) holds of the object. The DAO queries are the
    `Store` query functions applied to `State()`. */
module Database {
  import opened Wrappers
  import opened Entities
  import opened Store
  import StoreValid

  class PropertyDatabase {
    var properties: seq<PropertyEntity>
    var subscriptions: seq<SubscriptionEntity>
    var bills: seq<ElectricityBillEntity>
    var shareholders: seq<ShareholderEntity>
    var nextSubscriptionId: int
    var nextBillId: int
    var nextShareholderId: int
    /** Whether `INSERT OR REPLACE` on an existing key cascades to that row's children. */
    const replaceCascades: bool

    /** The tables as one value. */
    function State(): Db
      reads this
    {
      Db(properties, subscriptions, bills, shareholders,
         nextSubscriptionId, nextBillId, nextShareholderId, replaceCascades)
    }

    /** A new, empty database; every key counter starts at 1. */
    constructor (replaceCascades: bool)
      ensures State() == EmptyDb(replaceCascades)
      ensures Valid(State())
    {
      properties, subscriptions, bills, shareholders := [], [], [], [];
      nextSubscriptionId, nextBillId, nextShareholderId := 1, 1, 1;
      this.replaceCascades := replaceCascades;
    }

    /** Writes a whole new state; every DAO write ends with this. */
    method Commit(db: Db)
      requires db.replaceCascades == replaceCascades
      modifies this
      ensures State() == db
    {
      properties, subscriptions, bills, shareholders := db.properties, db.subscriptions, db.bills, db.shareholders;
      nextSubscriptionId, nextBillId, nextShareholderId := db.nextSubscriptionId, db.nextBillId, db.nextShareholderId;
    }

    // ---- PropertyDao ----

    method InsertProperty(e: PropertyEntity)
      modifies this
      ensures State() == Store.InsertProperty(old(State()), e)
      ensures old(Valid(State())) ==> Valid(State())
    {
      if Valid(State()) { StoreValid.InsertPropertyValid(State(), e); }
      Commit(Store.InsertProperty(State(), e));
    }

    method UpdateProperty(e: PropertyEntity)
      modifies this
      ensures State() == Store.UpdateProperty(old(State()), e)
      ensures old(Valid(State())) ==> Valid(State())
    {
      if Valid(State()) { StoreValid.UpdatePropertyValid(State(), e); }
      Commit(Store.UpdateProperty(State(), e));
    }

    method DeleteProperty(e: PropertyEntity)
      modifies this
      ensures State() == Store.DeleteProperty(old(State()), e)
      ensures old(Valid(State())) ==> Valid(State())
    {
      if Valid(State()) { StoreValid.DeletePropertyByIdValid(State(), e.id); }
      Commit(Store.DeleteProperty(State(), e));
    }

    method DeletePropertyById(id: string)
      modifies this
      ensures State() == Store.DeletePropertyById(old(State()), id)
      ensures old(Valid(State())) ==> Valid(State())
    {
      if Valid(State()) { StoreValid.DeletePropertyByIdValid(State(), id); }
      Commit(Store.DeletePropertyById(State(), id));
    }

    // ---- SubscriptionDao ----

    /** Returns the row id used, or the foreign-key failure. */
    method InsertSubscription(e: SubscriptionEntity) returns (r: Result<int, DbError>)
      modifies this
      ensures Outcome(State(), r) == Store.InsertSubscription(old(State()), e)
      ensures old(Valid(State())) ==> Valid(State())
    {
      if Valid(State()) { StoreValid.InsertSubscriptionValid(State(), e); }
      var o := Store.InsertSubscription(State(), e);
      Commit(o.db);
      r := o.result;
    }

    method UpdateSubscription(e: SubscriptionEntity) returns (r: Result<(), DbError>)
      modifies this
      ensures Outcome(State(), r) == Store.UpdateSubscription(old(State()), e)
      ensures old(Valid(State())) ==> Valid(State())
    {
      if Valid(State()) { StoreValid.UpdateSubscriptionValid(State(), e); }
      var o := Store.UpdateSubscription(State(), e);
      Commit(o.db);
      r := o.result;
    }

    method DeleteSubscription(e: SubscriptionEntity)
      modifies this
      ensures State() == Store.DeleteSubscription(old(State()), e)
      ensures old(Valid(State())) ==> Valid(State())
    {
      if Valid(State()) { StoreValid.DeleteSubscriptionValid(State(), e); }
      Commit(Store.DeleteSubscription(State(), e));
    }

    method DeleteSubscriptionsByPropertyId(propertyId: string)
      modifies this
      ensures State() == Store.DeleteSubscriptionsByPropertyId(old(State()), propertyId)
      ensures old(Valid(State())) ==> Valid(State())
    {
      if Valid(State()) { StoreValid.DeleteSubscriptionsByPropertyIdValid(State(), propertyId); }
      Commit(Store.DeleteSubscriptionsByPropertyId(State(), propertyId));
    }

    // ---- ElectricityBillDao ----

    method InsertBill(e: ElectricityBillEntity) returns (r: Result<(), DbError>)
      modifies this
      ensures Outcome(State(), r) == Store.InsertBill(old(State()), e)
      ensures old(Valid(State())) ==> Valid(State())
    {
      if Valid(State()) { StoreValid.InsertBillValid(State(), e); }
      var o := Store.InsertBill(State(), e);
      Commit(o.db);
      r := o.result;
    }

    method UpdateBill(e: ElectricityBillEntity) returns (r: Result<(), DbError>)
      modifies this
      ensures Outcome(State(), r) == Store.UpdateBill(old(State()), e)
      ensures old(Valid(State())) ==> Valid(State())
    {
      if Valid(State()) { StoreValid.UpdateBillValid(State(), e); }
      var o := Store.UpdateBill(State(), e);
      Commit(o.db);
      r := o.result;
    }

    method DeleteBill(e: ElectricityBillEntity)
      modifies this
      ensures State() == Store.DeleteBill(old(State()), e)
      ensures old(Valid(State())) ==> Valid(State())
    {
      if Valid(State()) { StoreValid.DeleteBillValid(State(), e); }
      Commit(Store.DeleteBill(State(), e));
    }

    method DeleteBillsBySubscriptionId(subscriptionId: int)
      modifies this
      ensures State() == Store.DeleteBillsBySubscriptionId(old(State()), subscriptionId)
      ensures old(Valid(State())) ==> Valid(State())
    {
      if Valid(State()) { StoreValid.DeleteBillsBySubscriptionIdValid(State(), subscriptionId); }
      Commit(Store.DeleteBillsBySubscriptionId(State(), subscriptionId));
    }

    // ---- ShareholderDao ----

    method InsertShareholder(e: ShareholderEntity) returns (r: Result<(), DbError>)
      modifies this
      ensures Outcome(State(), r) == Store.InsertShareholder(old(State()), e)
      ensures old(Valid(State())) ==> Valid(State())
    {
      if Valid(State()) { StoreValid.InsertShareholderValid(State(), e); }
      var o := Store.InsertShareholder(State(), e);
      Commit(o.db);
      r := o.result;
    }

    method UpdateShareholder(e: ShareholderEntity) returns (r: Result<(), DbError>)
      modifies this
      ensures Outcome(State(), r) == Store.UpdateShareholder(old(State()), e)
      ensures old(Valid(State())) ==> Valid(State())
    {
      if Valid(State()) { StoreValid.UpdateShareholderValid(State(), e); }
      var o := Store.UpdateShareholder(State(), e);
      Commit(o.db);
      r := o.result;
    }

    method DeleteShareholder(e: ShareholderEntity)
      modifies this
      ensures State() == Store.DeleteShareholder(old(State()), e)
      ensures old(Valid(State())) ==> Valid(State())
    {
      if Valid(State()) { StoreValid.DeleteShareholderValid(State(), e); }
      Commit(Store.DeleteShareholder(State(), e));
    }

    method DeleteShareholdersByPropertyId(propertyId: string)
      modifies this
      ensures State() == Store.DeleteShareholdersByPropertyId(old(State()), propertyId)
      ensures old(Valid(State())) ==> Valid(State())
    {
      if Valid(State()) { StoreValid.DeleteShareholdersByPropertyIdValid(State(), propertyId); }
      Commit(Store.DeleteShareholdersByPropertyId(State(), propertyId));
    }
  }
}
