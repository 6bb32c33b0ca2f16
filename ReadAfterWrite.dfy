/** The repository's property writes seen through its reads: after
    `insertProperty` or `updateProperty` the property reads back as written
    (bills newest first), after `deleteProperty` it reads as absent, and in
    every case each other property reads as it did before. */
module ReadAfterWrite {
  import opened Wrappers
  import opened Domain
  import opened Entities
  import opened Mappers
  import opened Tables
  import opened Store
  import opened Effects
  import opened Reads
  import opened ReadBack
  import StoreValid

  // ---- changes that leave another property's read alone ----

  /** Two states that differ only in the property table, and agree on the
      row for `q`, read `q` alike. */
  lemma PropertyRowsOnly(d1: Db, d2: Db, q: string)
    requires d2 == d1.(properties := d2.properties) && GetPropertyById(d1, q) == GetPropertyById(d2, q)
    ensures CompletePropertyById(d1, q) == CompletePropertyById(d2, q)
  {
    SameRowsSameRead(d1, d2, q);
  }

  /** Inserting a property row leaves the row of every other id alone. */
  lemma InsertKeepsOtherRows(db: Db, e: PropertyEntity, q: string)
    requires q != e.id
    ensures GetPropertyById(InsertProperty(db, e), q) == GetPropertyById(db, q)
  {
    var r := InsertProperty(db, e);
    FindOtherKeys(r.properties, PropertyKey, e.id);
    FindOtherKeys(db.properties, PropertyKey, e.id);
  }

  /** Updating a property row leaves the row of every other id alone. */
  lemma UpdateKeepsOtherRows(db: Db, e: PropertyEntity, q: string)
    requires q != e.id
    ensures GetPropertyById(UpdateProperty(db, e), q) == GetPropertyById(db, q)
  {
    if HasKey(db.properties, PropertyKey, e.id) {
      var r := UpdateProperty(db, e);
      ReplaceKeyFacts(db.properties, PropertyKey, e);
      FindOtherKeys(r.properties, PropertyKey, e.id);
      FindOtherKeys(db.properties, PropertyKey, e.id);
    }
  }

  /** Emptying the child tables of property `id` leaves every other
      property's read alone. */
  lemma ClearChildrenKeepsOthers(d: Db, id: string, q: string)
    requires Valid(d) && q != id
    ensures CompletePropertyById(ClearChildren(d, id), q) == CompletePropertyById(d, q)
  {
    var d1 := DeleteSubscriptionsByPropertyId(d, id);
    var d2 := DeleteShareholdersByPropertyId(d1, id);
    assert GetSubscriptionsByPropertyId(d2, q) == GetSubscriptionsByPropertyId(d1, q);
    forall s | s in GetSubscriptionsByPropertyId(d2, q)
      ensures Where(d2.bills, KeyIs(BillOwner, s.id)) == Where(d.bills, KeyIs(BillOwner, s.id))
    {
      CascadeKeepsOtherBills(d, id, s);
    }
    assert GetShareholdersByPropertyId(d1, q) == GetShareholdersByPropertyId(d, q);
    SameRowsSameRead(d2, d, q);
  }

  /** `deletePropertyById` is the cascade of `ClearChildren` with the row removed. */
  lemma DeleteIsClear(d: Db, id: string)
    ensures DeletePropertyById(d, id) == ClearChildren(d, id).(properties := DeletePropertyById(d, id).properties)
  {
  }

  // ---- deleteProperty ----

  /** After `deleteProperty` the property reads as absent and every other
      property reads as before. */
  lemma DeletePropertyRead(db: Db, id: string, q: string)
    requires Valid(db)
    ensures CompletePropertyById(DeletePropertyById(db, id), id) == Ok(None)
    ensures q != id ==> CompletePropertyById(DeletePropertyById(db, id), q) == CompletePropertyById(db, q)
  {
    if q != id {
      DeleteIsClear(db, id);
      ClearChildrenKeepsOthers(db, id, q);
      PropertyRowsOnly(ClearChildren(db, id), DeletePropertyById(db, id), q);
    }
  }

  // ---- insertProperty ----

  /** After `insertProperty` on a valid database, a property that was not
      stored, or whose replaced row takes its children with it, reads back as
      written, bills newest first. */
  lemma InsertFullPropertyReadBack(db: Db, p: Property)
    requires Valid(db) && (db.replaceCascades || !HasKey(db.properties, PropertyKey, p.id))
    ensures InsertFullProperty(db, p).result.Ok?
    ensures CompletePropertyById(InsertFullProperty(db, p).db, p.id) == Ok(Some(AsReadBack(p)))
  {
    var e := ToPropertyEntity(p);
    var d1 := InsertProperty(db, e);
    InsertFullPropertyAppends(db, p);
    StoreValid.InsertPropertyValid(db, e);
    if HasKey(db.properties, PropertyKey, p.id) {
      var del := DeletePropertyById(db, p.id);
      assert d1 == del.(properties := d1.properties);
      assert GetSubscriptionsByPropertyId(d1, p.id) == GetSubscriptionsByPropertyId(del, p.id);
      assert GetShareholdersByPropertyId(d1, p.id) == GetShareholdersByPropertyId(del, p.id);
    } else {
      NoChildrenOfMissing(db, p.id);
      assert GetSubscriptionsByPropertyId(d1, p.id) == GetSubscriptionsByPropertyId(db, p.id);
      assert GetShareholdersByPropertyId(d1, p.id) == GetShareholdersByPropertyId(db, p.id);
    }
    AppendedReadBack(d1, p);
  }

  /** When `insertProperty` replaces a stored row without cascading, the
      property's old child rows stay and the new ones follow them, so the
      read returns both. */
  lemma InsertFullPropertyKeepsOldChildren(db: Db, p: Property)
    requires Valid(db) && !db.replaceCascades && HasKey(db.properties, PropertyKey, p.id)
    ensures var f := InsertFullProperty(db, p).db;
      GetSubscriptionsByPropertyId(f, p.id) == GetSubscriptionsByPropertyId(db, p.id)
        + SubscriptionRows(p.subscriptions, p.id, db.nextSubscriptionId)
    ensures var f := InsertFullProperty(db, p).db;
      GetShareholdersByPropertyId(f, p.id) == GetShareholdersByPropertyId(db, p.id)
        + ShareholderRows(p.shareholders, p.id, db.nextShareholderId)
  {
    var e := ToPropertyEntity(p);
    var d1 := InsertProperty(db, e);
    InsertFullPropertyAppends(db, p);
    assert d1.(properties := db.properties) == db;
    AppendedSubscriptionRows(d1, p, p.id);
    AppendedShareholderRows(d1, p, p.id);
  }

  /** `insertProperty` leaves every other property's read alone. */
  lemma InsertFullPropertyOthers(db: Db, p: Property, q: string)
    requires Valid(db) && q != p.id
    ensures CompletePropertyById(InsertFullProperty(db, p).db, q) == CompletePropertyById(db, q)
  {
    var e := ToPropertyEntity(p);
    var d1 := InsertProperty(db, e);
    InsertFullPropertyAppends(db, p);
    StoreValid.InsertPropertyValid(db, e);
    AppendedOthers(d1, p, q);
    InsertKeepsOtherRows(db, e, q);
    if db.replaceCascades && HasKey(db.properties, PropertyKey, e.id) {
      var del := DeletePropertyById(db, e.id);
      DeletePropertyRead(db, e.id, q);
      PropertyRowsOnly(del, d1, q);
    } else {
      PropertyRowsOnly(db, d1, q);
    }
  }

  // ---- updateProperty ----

  /** After `updateProperty` of a stored property its children are exactly
      the new ones, and it reads back as written, bills newest first. */
  lemma UpdateFullPropertyReadBack(db: Db, p: Property)
    requires Valid(db) && HasKey(db.properties, PropertyKey, p.id)
    ensures UpdateFullProperty(db, p).result.Ok?
    ensures CompletePropertyById(UpdateFullProperty(db, p).db, p.id) == Ok(Some(AsReadBack(p)))
  {
    var e := ToPropertyEntity(p);
    var d0 := UpdateProperty(db, e);
    var d1 := DeleteSubscriptionsByPropertyId(d0, p.id);
    var c := ClearChildren(d0, p.id);
    UpdateFullPropertyReplaces(db, p);
    StoreValid.UpdatePropertyValid(db, e);
    ClearChildrenValid(d0, p.id);
    assert GetSubscriptionsByPropertyId(c, p.id) == GetSubscriptionsByPropertyId(d1, p.id);
    AppendedReadBack(c, p);
  }

  /** `updateProperty` leaves every other property's read alone. */
  lemma UpdateFullPropertyOthers(db: Db, p: Property, q: string)
    requires Valid(db) && q != p.id
    ensures CompletePropertyById(UpdateFullProperty(db, p).db, q) == CompletePropertyById(db, q)
  {
    if HasKey(db.properties, PropertyKey, p.id) {
      var e := ToPropertyEntity(p);
      var d0 := UpdateProperty(db, e);
      var c := ClearChildren(d0, p.id);
      UpdateFullPropertyReplaces(db, p);
      StoreValid.UpdatePropertyValid(db, e);
      ClearChildrenValid(d0, p.id);
      AppendedOthers(c, p, q);
      ClearChildrenKeepsOthers(d0, p.id, q);
      UpdateKeepsOtherRows(db, e, q);
      PropertyRowsOnly(db, d0, q);
    } else {
      UpdateFullPropertyMissing(db, p);
    }
  }
}
