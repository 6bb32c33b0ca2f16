/** Every DAO write keeps the schema's constraints: primary keys stay
    unique, generated keys stay below the counters, and no child row is
    left naming a missing parent. */
module StoreValid {
  import opened Wrappers
  import opened Entities
  import opened Tables
  import opened Store

  lemma DeleteBillValid(db: Db, e: ElectricityBillEntity)
    requires Valid(db)
    ensures Valid(DeleteBill(db, e))
  {
    var r := DeleteBill(db, e);
    WhereUnique(db.bills, KeyIsNot(BillKey, e.id), BillKey);
    WhereMembers(db.bills, KeyIsNot(BillKey, e.id));
    IdsBelowWithin(r.bills, db.bills, BillKey, db.nextBillId, db.nextBillId);
    ParentsExistWithin(r.bills, db.bills, BillOwner, db.subscriptions, db.subscriptions, SubscriptionKey);
  }

  lemma DeleteBillsBySubscriptionIdValid(db: Db, subscriptionId: int)
    requires Valid(db)
    ensures Valid(DeleteBillsBySubscriptionId(db, subscriptionId))
  {
    var r := DeleteBillsBySubscriptionId(db, subscriptionId);
    WhereUnique(db.bills, KeyIsNot(BillOwner, subscriptionId), BillKey);
    WhereMembers(db.bills, KeyIsNot(BillOwner, subscriptionId));
    IdsBelowWithin(r.bills, db.bills, BillKey, db.nextBillId, db.nextBillId);
    ParentsExistWithin(r.bills, db.bills, BillOwner, db.subscriptions, db.subscriptions, SubscriptionKey);
  }

  /** The bills that survive a cascade still find their subscription among
      the subscriptions that survive. */
  lemma SurvivingBillsHaveParents(db: Db, subs: seq<SubscriptionEntity>, bills: seq<ElectricityBillEntity>, keep: SubscriptionEntity -> bool)
    requires ParentsExist(db.bills, BillOwner, db.subscriptions, SubscriptionKey)
    requires subs == Where(db.subscriptions, keep) && Within(bills, db.bills)
    requires forall i, j ::
      0 <= i < |bills| && 0 <= j < |db.subscriptions| && db.subscriptions[j].id == bills[i].subscriptionId
      ==> keep(db.subscriptions[j])
    ensures ParentsExist(bills, BillOwner, subs, SubscriptionKey)
  {
    forall i | 0 <= i < |bills| ensures HasKey(subs, SubscriptionKey, bills[i].subscriptionId) {
      var b := bills[i];
      var m :| 0 <= m < |db.bills| && db.bills[m] == b;
      assert HasKey(db.subscriptions, SubscriptionKey, BillOwner(db.bills[m]));
      var k :| 0 <= k < |db.subscriptions| && db.subscriptions[k].id == b.subscriptionId;
      WhereHasKey(db.subscriptions, keep, SubscriptionKey, b.subscriptionId);
    }
  }

  lemma DeleteSubscriptionValid(db: Db, e: SubscriptionEntity)
    requires Valid(db)
    ensures Valid(DeleteSubscription(db, e))
  {
    var r := DeleteSubscription(db, e);
    var keep := KeyIsNot(SubscriptionKey, e.id);
    assert r.subscriptions == Where(db.subscriptions, keep);
    assert r.bills == Where(db.bills, KeyIsNot(BillOwner, e.id));
    WhereUnique(db.subscriptions, keep, SubscriptionKey);
    WhereUnique(db.bills, KeyIsNot(BillOwner, e.id), BillKey);
    WhereMembers(db.subscriptions, keep);
    WhereMembers(db.bills, KeyIsNot(BillOwner, e.id));
    IdsBelowWithin(r.subscriptions, db.subscriptions, SubscriptionKey, db.nextSubscriptionId, db.nextSubscriptionId);
    IdsBelowWithin(r.bills, db.bills, BillKey, db.nextBillId, db.nextBillId);
    ParentsExistWithin(r.subscriptions, db.subscriptions, SubscriptionOwner, db.properties, db.properties, PropertyKey);
    SurvivingBillsHaveParents(db, r.subscriptions, r.bills, keep);
  }

  lemma DeleteSubscriptionsByPropertyIdValid(db: Db, propertyId: string)
    requires Valid(db)
    ensures Valid(DeleteSubscriptionsByPropertyId(db, propertyId))
  {
    var r := DeleteSubscriptionsByPropertyId(db, propertyId);
    var keep := KeyIsNot(SubscriptionOwner, propertyId);
    assert r.subscriptions == Where(db.subscriptions, keep);
    assert r.bills == Where(db.bills, NotOwnedBy(db, propertyId));
    WhereUnique(db.subscriptions, keep, SubscriptionKey);
    WhereUnique(db.bills, NotOwnedBy(db, propertyId), BillKey);
    WhereMembers(db.subscriptions, keep);
    WhereMembers(db.bills, NotOwnedBy(db, propertyId));
    IdsBelowWithin(r.subscriptions, db.subscriptions, SubscriptionKey, db.nextSubscriptionId, db.nextSubscriptionId);
    IdsBelowWithin(r.bills, db.bills, BillKey, db.nextBillId, db.nextBillId);
    ParentsExistWithin(r.subscriptions, db.subscriptions, SubscriptionOwner, db.properties, db.properties, PropertyKey);
    forall i, j | 0 <= i < |r.bills| && 0 <= j < |db.subscriptions| && db.subscriptions[j].id == r.bills[i].subscriptionId
      ensures keep(db.subscriptions[j])
    {
      OwnedByMeans(db, propertyId, r.bills[i]);
    }
    SurvivingBillsHaveParents(db, r.subscriptions, r.bills, keep);
  }

  lemma DeleteShareholderValid(db: Db, e: ShareholderEntity)
    requires Valid(db)
    ensures Valid(DeleteShareholder(db, e))
  {
    var r := DeleteShareholder(db, e);
    assert r.shareholders == Where(db.shareholders, KeyIsNot(ShareholderKey, e.id));
    WhereUnique(db.shareholders, KeyIsNot(ShareholderKey, e.id), ShareholderKey);
    WhereMembers(db.shareholders, KeyIsNot(ShareholderKey, e.id));
    IdsBelowWithin(r.shareholders, db.shareholders, ShareholderKey, db.nextShareholderId, db.nextShareholderId);
    ParentsExistWithin(r.shareholders, db.shareholders, ShareholderOwner, db.properties, db.properties, PropertyKey);
  }

  lemma DeleteShareholdersByPropertyIdValid(db: Db, propertyId: string)
    requires Valid(db)
    ensures Valid(DeleteShareholdersByPropertyId(db, propertyId))
  {
    var r := DeleteShareholdersByPropertyId(db, propertyId);
    assert r.shareholders == Where(db.shareholders, KeyIsNot(ShareholderOwner, propertyId));
    WhereUnique(db.shareholders, KeyIsNot(ShareholderOwner, propertyId), ShareholderKey);
    WhereMembers(db.shareholders, KeyIsNot(ShareholderOwner, propertyId));
    IdsBelowWithin(r.shareholders, db.shareholders, ShareholderKey, db.nextShareholderId, db.nextShareholderId);
    ParentsExistWithin(r.shareholders, db.shareholders, ShareholderOwner, db.properties, db.properties, PropertyKey);
  }

  /** Children that do not name `id` still find their parent once the row
      `id` is gone. */
  lemma OtherParentsRemain<C>(children: seq<C>, owner: C -> string, props: seq<PropertyEntity>, id: string)
    requires ParentsExist(children, owner, props, PropertyKey)
    requires forall i :: 0 <= i < |children| ==> owner(children[i]) != id
    ensures ParentsExist(children, owner, Where(props, KeyIsNot(PropertyKey, id)), PropertyKey)
  {
    forall i | 0 <= i < |children| ensures HasKey(Where(props, KeyIsNot(PropertyKey, id)), PropertyKey, owner(children[i])) {
      var k :| 0 <= k < |props| && props[k].id == owner(children[i]);
      WhereHasKey(props, KeyIsNot(PropertyKey, id), PropertyKey, owner(children[i]));
      assert KeyIsNot(PropertyKey, id)(props[k]);
    }
  }

  lemma DeletePropertyByIdValid(db: Db, id: string)
    requires Valid(db)
    ensures Valid(DeletePropertyById(db, id))
  {
    var d1 := DeleteSubscriptionsByPropertyId(db, id);
    DeleteSubscriptionsByPropertyIdValid(db, id);
    var d2 := DeleteShareholdersByPropertyId(d1, id);
    DeleteShareholdersByPropertyIdValid(d1, id);
    var r := DeletePropertyById(db, id);
    assert r == d2.(properties := Where(db.properties, KeyIsNot(PropertyKey, id)));
    assert d2.properties == db.properties;
    WhereUnique(db.properties, KeyIsNot(PropertyKey, id), PropertyKey);
    assert GetSubscriptionsByPropertyId(d2, id) == GetSubscriptionsByPropertyId(d1, id) == [];
    assert forall i :: 0 <= i < |d2.subscriptions| ==> d2.subscriptions[i].propertyId != id;
    assert forall i :: 0 <= i < |d2.shareholders| ==> d2.shareholders[i].propertyId != id;
    OtherParentsRemain(d2.subscriptions, SubscriptionOwner, db.properties, id);
    OtherParentsRemain(d2.shareholders, ShareholderOwner, db.properties, id);
  }

  lemma InsertPropertyValid(db: Db, e: PropertyEntity)
    requires Valid(db)
    ensures Valid(InsertProperty(db, e))
  {
    var kept := Where(db.properties, KeyIsNot(PropertyKey, e.id));
    ReplaceByAppend(db.properties, PropertyKey, e);
    if db.replaceCascades && HasKey(db.properties, PropertyKey, e.id) {
      var base := DeletePropertyById(db, e.id);
      DeletePropertyByIdValid(db, e.id);
      assert base.properties == kept;
      PropertyRowsValid(base, kept + [e]);
    } else {
      PropertyRowsValid(db, kept + [e]);
    }
  }

  lemma UpdatePropertyValid(db: Db, e: PropertyEntity)
    requires Valid(db)
    ensures Valid(UpdateProperty(db, e))
  {
    if HasKey(db.properties, PropertyKey, e.id) {
      ReplaceKeyFacts(db.properties, PropertyKey, e);
      PropertyRowsValid(db, ReplaceKey(db.properties, PropertyKey, e.id, e));
    }
  }

  /** New property rows with unique keys that keep every key keep the database valid. */
  lemma PropertyRowsValid(b: Db, rows: seq<PropertyEntity>)
    requires Valid(b) && UniqueKeys(rows, PropertyKey)
    requires forall k :: HasKey(b.properties, PropertyKey, k) ==> HasKey(rows, PropertyKey, k)
    ensures Valid(b.(properties := rows))
  {
    ParentsExistWithin(b.subscriptions, b.subscriptions, SubscriptionOwner, b.properties, rows, PropertyKey);
    ParentsExistWithin(b.shareholders, b.shareholders, ShareholderOwner, b.properties, rows, PropertyKey);
  }

  lemma InsertSubscriptionValid(db: Db, e: SubscriptionEntity)
    requires Valid(db)
    ensures Valid(InsertSubscription(db, e).db)
  {
    var o := InsertSubscription(db, e);
    if o.result.Ok? {
      var id := o.result.value;
      var r := o.db;
      var row := e.(id := id);
      assert r.subscriptions == Upsert(db.subscriptions, SubscriptionKey, row);
      UpsertRows(db.subscriptions, SubscriptionKey, row);
      assert IdsBelow([row], SubscriptionKey, r.nextSubscriptionId);
      assert ParentsExist([row], SubscriptionOwner, r.properties, PropertyKey);
      IdsBelowUnion(r.subscriptions, db.subscriptions, row, SubscriptionKey, db.nextSubscriptionId, r.nextSubscriptionId);
      ParentsExistUnion(r.subscriptions, db.subscriptions, row, SubscriptionOwner, db.properties, PropertyKey);
      if db.replaceCascades && HasKey(db.subscriptions, SubscriptionKey, id) {
        WhereUnique(db.bills, KeyIsNot(BillOwner, id), BillKey);
        WhereMembers(db.bills, KeyIsNot(BillOwner, id));
      }
      assert Within(r.bills, db.bills);
      IdsBelowWithin(r.bills, db.bills, BillKey, db.nextBillId, db.nextBillId);
      ParentsExistWithin(r.bills, db.bills, BillOwner, db.subscriptions, r.subscriptions, SubscriptionKey);
    }
  }

  /** Old rows below n plus one new row x below m, with n <= m. */
  lemma IdsBelowUnion<T>(a: seq<T>, b: seq<T>, x: T, key: T -> int, n: int, m: int)
    requires Within(a, b + [x]) && IdsBelow(b, key, n) && n <= m && key(x) != 0 && key(x) < m
    ensures IdsBelow(a, key, m)
  {
    forall i | 0 <= i < |a| ensures key(a[i]) != 0 && key(a[i]) < m {
      var j :| 0 <= j < |b + [x]| && (b + [x])[j] == a[i];
      if j < |b| { assert b[j] == a[i]; }
    }
  }

  /** Old children with parents plus one new child whose parent exists. */
  lemma ParentsExistUnion<C, P, K>(a: seq<C>, b: seq<C>, x: C, owner: C -> K, ps: seq<P>, pkey: P -> K)
    requires Within(a, b + [x]) && ParentsExist(b, owner, ps, pkey) && HasKey(ps, pkey, owner(x))
    ensures ParentsExist(a, owner, ps, pkey)
  {
    forall i | 0 <= i < |a| ensures HasKey(ps, pkey, owner(a[i])) {
      var j :| 0 <= j < |b + [x]| && (b + [x])[j] == a[i];
      if j < |b| { assert b[j] == a[i]; }
    }
  }

  lemma UpdateSubscriptionValid(db: Db, e: SubscriptionEntity)
    requires Valid(db)
    ensures Valid(UpdateSubscription(db, e).db)
  {
    var o := UpdateSubscription(db, e);
    if o.result.Ok? && HasKey(db.subscriptions, SubscriptionKey, e.id) {
      var r := o.db;
      ReplaceKeyFacts(db.subscriptions, SubscriptionKey, e);
      assert r.subscriptions == ReplaceKey(db.subscriptions, SubscriptionKey, e.id, e);
      assert UniqueKeys(r.subscriptions, SubscriptionKey);
      var k :| 0 <= k < |db.subscriptions| && db.subscriptions[k].id == e.id;
      UpsertRowsReplace(db.subscriptions, SubscriptionKey, e);
      IdsBelowUnion(r.subscriptions, db.subscriptions, e, SubscriptionKey, db.nextSubscriptionId, db.nextSubscriptionId);
      ParentsExistUnion(r.subscriptions, db.subscriptions, e, SubscriptionOwner, db.properties, PropertyKey);
      ParentsExistWithin(db.bills, db.bills, BillOwner, db.subscriptions, r.subscriptions, SubscriptionKey);
    }
  }

  /** Every row after a replace is x or was there before. */
  lemma UpsertRowsReplace<T, K>(rows: seq<T>, key: T -> K, x: T)
    ensures Within(ReplaceKey(rows, key, key(x), x), rows + [x])
  {
    var r := ReplaceKey(rows, key, key(x), x);
    forall i | 0 <= i < |r| ensures r[i] in rows + [x] {
      assert r[i] == if key(rows[i]) == key(x) then x else rows[i];
    }
  }

  lemma InsertBillValid(db: Db, e: ElectricityBillEntity)
    requires Valid(db)
    ensures Valid(InsertBill(db, e).db)
  {
    var o := InsertBill(db, e);
    if o.result.Ok? {
      var id := IssuedId(e.id, db.nextBillId);
      var r := o.db;
      var row := e.(id := id);
      assert r.bills == Upsert(db.bills, BillKey, row);
      UpsertRows(db.bills, BillKey, row);
      IdsBelowUnion(r.bills, db.bills, row, BillKey, db.nextBillId, r.nextBillId);
      ParentsExistUnion(r.bills, db.bills, row, BillOwner, db.subscriptions, SubscriptionKey);
    }
  }

  lemma UpdateBillValid(db: Db, e: ElectricityBillEntity)
    requires Valid(db)
    ensures Valid(UpdateBill(db, e).db)
  {
    var o := UpdateBill(db, e);
    if o.result.Ok? && HasKey(db.bills, BillKey, e.id) {
      var r := o.db;
      ReplaceKeyFacts(db.bills, BillKey, e);
      assert r.bills == ReplaceKey(db.bills, BillKey, e.id, e);
      var k :| 0 <= k < |db.bills| && db.bills[k].id == e.id;
      UpsertRowsReplace(db.bills, BillKey, e);
      IdsBelowUnion(r.bills, db.bills, e, BillKey, db.nextBillId, db.nextBillId);
      ParentsExistUnion(r.bills, db.bills, e, BillOwner, db.subscriptions, SubscriptionKey);
    }
  }

  lemma InsertShareholderValid(db: Db, e: ShareholderEntity)
    requires Valid(db)
    ensures Valid(InsertShareholder(db, e).db)
  {
    var o := InsertShareholder(db, e);
    if o.result.Ok? {
      var id := IssuedId(e.id, db.nextShareholderId);
      var r := o.db;
      var row := e.(id := id);
      assert r.shareholders == Upsert(db.shareholders, ShareholderKey, row);
      UpsertRows(db.shareholders, ShareholderKey, row);
      IdsBelowUnion(r.shareholders, db.shareholders, row, ShareholderKey, db.nextShareholderId, r.nextShareholderId);
      ParentsExistUnion(r.shareholders, db.shareholders, row, ShareholderOwner, db.properties, PropertyKey);
    }
  }

  lemma UpdateShareholderValid(db: Db, e: ShareholderEntity)
    requires Valid(db)
    ensures Valid(UpdateShareholder(db, e).db)
  {
    var o := UpdateShareholder(db, e);
    if o.result.Ok? && HasKey(db.shareholders, ShareholderKey, e.id) {
      var r := o.db;
      ReplaceKeyFacts(db.shareholders, ShareholderKey, e);
      assert r.shareholders == ReplaceKey(db.shareholders, ShareholderKey, e.id, e);
      var k :| 0 <= k < |db.shareholders| && db.shareholders[k].id == e.id;
      UpsertRowsReplace(db.shareholders, ShareholderKey, e);
      IdsBelowUnion(r.shareholders, db.shareholders, e, ShareholderKey, db.nextShareholderId, db.nextShareholderId);
      ParentsExistUnion(r.shareholders, db.shareholders, e, ShareholderOwner, db.properties, PropertyKey);
    }
  }
}
