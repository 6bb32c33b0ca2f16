/** The four-table SQLite database behind the DAOs, as a value. Rows are
    kept in insertion order (the order a `SELECT` without `ORDER BY` scans
    them); the three tables with generated keys each keep the next key to
    hand out, as AUTOINCREMENT does. Foreign keys are enforced: a write
    naming a missing parent fails and changes nothing, and deleting a parent
    deletes its children (ON DELETE CASCADE). Each DAO query is a function of
    the state and each DAO write a function from state to state. */
module Store {
  import opened Wrappers
  import opened Entities
  import opened Tables

  /** A write that breaks a foreign key (SQLiteConstraintException). */
  datatype DbError = ConstraintViolation

  /** `replaceCascades` says whether the delete half of `INSERT OR REPLACE`
      on an existing key also cascades to that row's children. SQLite runs
      the foreign keys' delete actions for the rows `REPLACE` removes
      whenever foreign keys are enforced, as Room enforces them, so the app
      runs with `replaceCascades` true. */
  datatype Db = Db(
    properties: seq<PropertyEntity>,
    subscriptions: seq<SubscriptionEntity>,
    bills: seq<ElectricityBillEntity>,
    shareholders: seq<ShareholderEntity>,
    nextSubscriptionId: int,
    nextBillId: int,
    nextShareholderId: int,
    replaceCascades: bool)

  /** The new state after a write and what the write returned or threw. */
  datatype Outcome<T> = Outcome(db: Db, result: Result<T, DbError>)

  function Max(a: int, b: int): int { if a < b then b else a }

  // ---- keys and foreign keys ----

  function PropertyKey(e: PropertyEntity): string { e.id }
  function SubscriptionKey(e: SubscriptionEntity): int { e.id }
  function SubscriptionOwner(e: SubscriptionEntity): string { e.propertyId }
  function BillKey(e: ElectricityBillEntity): int { e.id }
  function BillOwner(e: ElectricityBillEntity): int { e.subscriptionId }
  function PaymentDateKey(e: ElectricityBillEntity): string { e.paymentDate }
  function ShareholderKey(e: ShareholderEntity): int { e.id }
  function ShareholderOwner(e: ShareholderEntity): string { e.propertyId }

  predicate KeysUnique(db: Db)
  {
    && UniqueKeys(db.properties, PropertyKey)
    && UniqueKeys(db.subscriptions, SubscriptionKey)
    && UniqueKeys(db.bills, BillKey)
    && UniqueKeys(db.shareholders, ShareholderKey)
  }

  /** Every generated key in use is nonzero and below the next one to issue. */
  predicate KeysIssued(db: Db)
  {
    && db.nextSubscriptionId >= 1 && db.nextBillId >= 1 && db.nextShareholderId >= 1
    && IdsBelow(db.subscriptions, SubscriptionKey, db.nextSubscriptionId)
    && IdsBelow(db.bills, BillKey, db.nextBillId)
    && IdsBelow(db.shareholders, ShareholderKey, db.nextShareholderId)
  }

  /** Every child row names an existing parent row. */
  predicate ForeignKeysHold(db: Db)
  {
    && ParentsExist(db.subscriptions, SubscriptionOwner, db.properties, PropertyKey)
    && ParentsExist(db.bills, BillOwner, db.subscriptions, SubscriptionKey)
    && ParentsExist(db.shareholders, ShareholderOwner, db.properties, PropertyKey)
  }

  /** The schema's constraints: primary keys, issued keys, foreign keys. */
  predicate Valid(db: Db)
  {
    KeysUnique(db) && KeysIssued(db) && ForeignKeysHold(db)
  }

  /** A freshly created database. */
  function EmptyDb(replaceCascades: bool): (db: Db)
    ensures Valid(db) && db.replaceCascades == replaceCascades
    ensures db.properties == [] && db.subscriptions == [] && db.bills == [] && db.shareholders == []
  {
    Db([], [], [], [], 1, 1, 1, replaceCascades)
  }

  // ---- queries ----

  /** `getPropertyById`: the row with that id, or null. */
  function GetPropertyById(db: Db, id: string): (r: Option<PropertyEntity>)
    ensures r.None? <==> !HasKey(db.properties, PropertyKey, id)
    ensures r.Some? ==> r.value in db.properties && r.value.id == id
  {
    Find(db.properties, PropertyKey, id)
  }

  /** `getAllProperties`: every row, each id once it is listed. */
  function GetAllProperties(db: Db): (r: seq<PropertyEntity>)
    ensures forall id :: HasKey(r, PropertyKey, id) <==> GetPropertyById(db, id).Some?
    ensures |r| == |db.properties|
    ensures multiset(r) == multiset(db.properties)
  {
    db.properties
  }

  /** `getSubscriptionsByPropertyId`: exactly the rows naming that property, in table order. */
  function GetSubscriptionsByPropertyId(db: Db, propertyId: string): (r: seq<SubscriptionEntity>)
    ensures forall i :: 0 <= i < |r| ==> r[i] in db.subscriptions && r[i].propertyId == propertyId
    ensures forall i :: 0 <= i < |db.subscriptions| && db.subscriptions[i].propertyId == propertyId ==> db.subscriptions[i] in r
    ensures IsSublist(r, db.subscriptions)
  {
    var r := Where(db.subscriptions, KeyIs(SubscriptionOwner, propertyId));
    WhereKeyIs(db.subscriptions, SubscriptionOwner, propertyId);
    WhereSublist(db.subscriptions, KeyIs(SubscriptionOwner, propertyId));
    assert forall i :: 0 <= i < |r| ==> r[i] in db.subscriptions && r[i].propertyId == propertyId by {
      forall i | 0 <= i < |r| ensures r[i] in db.subscriptions && r[i].propertyId == propertyId {
        assert r[i] in db.subscriptions && SubscriptionOwner(r[i]) == propertyId;
      }
    }
    r
  }

  /** `getSubscriptionById`. */
  function GetSubscriptionById(db: Db, id: int): (r: Option<SubscriptionEntity>)
    ensures r.None? <==> !HasKey(db.subscriptions, SubscriptionKey, id)
    ensures r.Some? ==> r.value in db.subscriptions && r.value.id == id
  {
    Find(db.subscriptions, SubscriptionKey, id)
  }

  /** `getBillsBySubscriptionId`: exactly that subscription's rows, latest
      `paymentDate` text first; rows with equal dates stay in table order. */
  function GetBillsBySubscriptionId(db: Db, subscriptionId: int): (r: seq<ElectricityBillEntity>)
    ensures multiset(r) == multiset(Where(db.bills, KeyIs(BillOwner, subscriptionId)))
    ensures forall i :: 0 <= i < |r| ==> r[i] in db.bills && r[i].subscriptionId == subscriptionId
    ensures forall i :: 0 <= i < |db.bills| && db.bills[i].subscriptionId == subscriptionId ==> db.bills[i] in r
    ensures SortedDesc(r, PaymentDateKey)
  {
    var rows := Where(db.bills, KeyIs(BillOwner, subscriptionId));
    WhereKeyIs(db.bills, BillOwner, subscriptionId);
    SortDescSorted(rows, PaymentDateKey);
    var r := SortDesc(rows, PaymentDateKey);
    SameMembers(r, rows);
    r
  }

  /** `getBillById`. */
  function GetBillById(db: Db, id: int): (r: Option<ElectricityBillEntity>)
    ensures r.None? <==> !HasKey(db.bills, BillKey, id)
    ensures r.Some? ==> r.value in db.bills && r.value.id == id
  {
    Find(db.bills, BillKey, id)
  }

  /** A bill belongs to a property when its subscription does: the join's condition. */
  function OwnedBy(db: Db, propertyId: string): ElectricityBillEntity -> bool
  {
    (b: ElectricityBillEntity) => HasKey(GetSubscriptionsByPropertyId(db, propertyId), SubscriptionKey, b.subscriptionId)
  }

  function NotOwnedBy(db: Db, propertyId: string): ElectricityBillEntity -> bool
  {
    (b: ElectricityBillEntity) => !OwnedBy(db, propertyId)(b)
  }

  /** The join condition spelled out: some subscription row of the property
      has the bill's subscription id. */
  lemma OwnedByMeans(db: Db, propertyId: string, b: ElectricityBillEntity)
    ensures OwnedBy(db, propertyId)(b) <==>
      exists j :: 0 <= j < |db.subscriptions| && db.subscriptions[j].propertyId == propertyId
        && db.subscriptions[j].id == b.subscriptionId
  {
    var subs := GetSubscriptionsByPropertyId(db, propertyId);
    if OwnedBy(db, propertyId)(b) {
      var k :| 0 <= k < |subs| && subs[k].id == b.subscriptionId;
      var j :| 0 <= j < |db.subscriptions| && db.subscriptions[j] == subs[k];
    }
    if exists j :: 0 <= j < |db.subscriptions| && db.subscriptions[j].propertyId == propertyId
        && db.subscriptions[j].id == b.subscriptionId {
      var j :| 0 <= j < |db.subscriptions| && db.subscriptions[j].propertyId == propertyId
        && db.subscriptions[j].id == b.subscriptionId;
      var k :| 0 <= k < |subs| && subs[k] == db.subscriptions[j];
      assert SubscriptionKey(subs[k]) == b.subscriptionId;
    }
  }

  /** `getBillsByPropertyId`: the bills whose subscription names that
      property, latest date text first. */
  function GetBillsByPropertyId(db: Db, propertyId: string): (r: seq<ElectricityBillEntity>)
    ensures multiset(r) == multiset(Where(db.bills, OwnedBy(db, propertyId)))
    ensures forall i :: 0 <= i < |r| ==> r[i] in db.bills && OwnedBy(db, propertyId)(r[i])
    ensures forall i :: 0 <= i < |db.bills| && OwnedBy(db, propertyId)(db.bills[i]) ==> db.bills[i] in r
    ensures SortedDesc(r, PaymentDateKey)
  {
    var rows := Where(db.bills, OwnedBy(db, propertyId));
    WhereMembers(db.bills, OwnedBy(db, propertyId));
    SortDescSorted(rows, PaymentDateKey);
    var r := SortDesc(rows, PaymentDateKey);
    SameMembers(r, rows);
    r
  }

  /** `getShareholdersByPropertyId`: exactly the rows naming that property, in table order. */
  function GetShareholdersByPropertyId(db: Db, propertyId: string): (r: seq<ShareholderEntity>)
    ensures forall i :: 0 <= i < |r| ==> r[i] in db.shareholders && r[i].propertyId == propertyId
    ensures forall i :: 0 <= i < |db.shareholders| && db.shareholders[i].propertyId == propertyId ==> db.shareholders[i] in r
    ensures IsSublist(r, db.shareholders)
  {
    var r := Where(db.shareholders, KeyIs(ShareholderOwner, propertyId));
    WhereKeyIs(db.shareholders, ShareholderOwner, propertyId);
    WhereSublist(db.shareholders, KeyIs(ShareholderOwner, propertyId));
    assert forall i :: 0 <= i < |r| ==> r[i] in db.shareholders && r[i].propertyId == propertyId by {
      forall i | 0 <= i < |r| ensures r[i] in db.shareholders && r[i].propertyId == propertyId {
        assert r[i] in db.shareholders && ShareholderOwner(r[i]) == propertyId;
      }
    }
    r
  }

  /** `getShareholderById`. */
  function GetShareholderById(db: Db, id: int): (r: Option<ShareholderEntity>)
    ensures r.None? <==> !HasKey(db.shareholders, ShareholderKey, id)
    ensures r.Some? ==> r.value in db.shareholders && r.value.id == id
  {
    Find(db.shareholders, ShareholderKey, id)
  }

  // ---- deletes ----

  /** `deleteBill` (`@Delete` matches on the primary key only). */
  function DeleteBill(db: Db, e: ElectricityBillEntity): (r: Db)
    ensures GetBillById(r, e.id).None?
    ensures forall q :: q != e.id ==> GetBillById(r, q) == GetBillById(db, q)
    ensures forall i :: 0 <= i < |db.bills| && db.bills[i].id != e.id ==> db.bills[i] in r.bills
    ensures IsSublist(r.bills, db.bills)
    ensures r.(bills := db.bills) == db
  {
    FindOtherKeys(db.bills, BillKey, e.id);
    var rows := Where(db.bills, KeyIsNot(BillKey, e.id));
    WhereMembers(db.bills, KeyIsNot(BillKey, e.id));
    WhereSublist(db.bills, KeyIsNot(BillKey, e.id));
    assert forall i :: 0 <= i < |db.bills| && db.bills[i].id != e.id ==> KeyIsNot(BillKey, e.id)(db.bills[i]);
    db.(bills := rows)
  }

  /** `deleteBillsBySubscriptionId`: exactly that subscription's bills go. */
  function DeleteBillsBySubscriptionId(db: Db, subscriptionId: int): (r: Db)
    ensures GetBillsBySubscriptionId(r, subscriptionId) == []
    ensures forall q :: q != subscriptionId ==> GetBillsBySubscriptionId(r, q) == GetBillsBySubscriptionId(db, q)
    ensures forall i :: 0 <= i < |db.bills| && db.bills[i].subscriptionId != subscriptionId ==> db.bills[i] in r.bills
    ensures IsSublist(r.bills, db.bills)
    ensures r.(bills := db.bills) == db
  {
    WhereOtherKeys(db.bills, BillOwner, subscriptionId);
    WhereMembers(db.bills, KeyIsNot(BillOwner, subscriptionId));
    WhereSublist(db.bills, KeyIsNot(BillOwner, subscriptionId));
    assert forall i :: 0 <= i < |db.bills| && db.bills[i].subscriptionId != subscriptionId ==> KeyIsNot(BillOwner, subscriptionId)(db.bills[i]);
    db.(bills := Where(db.bills, KeyIsNot(BillOwner, subscriptionId)))
  }

  /** `deleteSubscription`: the row goes, and by cascade its bills. */
  function DeleteSubscription(db: Db, e: SubscriptionEntity): (r: Db)
    ensures GetSubscriptionById(r, e.id).None? && GetBillsBySubscriptionId(r, e.id) == []
    ensures forall q :: q != e.id ==> GetSubscriptionById(r, q) == GetSubscriptionById(db, q)
    ensures forall q :: q != e.id ==> GetBillsBySubscriptionId(r, q) == GetBillsBySubscriptionId(db, q)
    ensures forall p :: GetSubscriptionsByPropertyId(r, p) == Where(GetSubscriptionsByPropertyId(db, p), KeyIsNot(SubscriptionKey, e.id))
    ensures r.(subscriptions := db.subscriptions, bills := db.bills) == db
  {
    FindOtherKeys(db.subscriptions, SubscriptionKey, e.id);
    var r := DeleteBillsBySubscriptionId(db, e.id).(subscriptions := Where(db.subscriptions, KeyIsNot(SubscriptionKey, e.id)));
    assert forall p :: GetSubscriptionsByPropertyId(r, p) == Where(GetSubscriptionsByPropertyId(db, p), KeyIsNot(SubscriptionKey, e.id)) by {
      forall p ensures GetSubscriptionsByPropertyId(r, p) == Where(GetSubscriptionsByPropertyId(db, p), KeyIsNot(SubscriptionKey, e.id)) {
        WhereCommute(db.subscriptions, KeyIsNot(SubscriptionKey, e.id), KeyIs(SubscriptionOwner, p));
      }
    }
    r
  }

  /** `deleteSubscriptionsByPropertyId`: that property's subscriptions go,
      and by cascade every bill under them; nothing else changes. */
  function DeleteSubscriptionsByPropertyId(db: Db, propertyId: string): (r: Db)
    ensures GetSubscriptionsByPropertyId(r, propertyId) == []
    ensures forall q :: q != propertyId ==> GetSubscriptionsByPropertyId(r, q) == GetSubscriptionsByPropertyId(db, q)
    ensures forall i :: 0 <= i < |r.bills| ==> r.bills[i] in db.bills && !OwnedBy(db, propertyId)(r.bills[i])
    ensures forall i :: 0 <= i < |db.bills| && !OwnedBy(db, propertyId)(db.bills[i]) ==> db.bills[i] in r.bills
    ensures IsSublist(r.bills, db.bills) && IsSublist(r.subscriptions, db.subscriptions)
    ensures r.(subscriptions := db.subscriptions, bills := db.bills) == db
  {
    WhereOtherKeys(db.subscriptions, SubscriptionOwner, propertyId);
    var bills := Where(db.bills, NotOwnedBy(db, propertyId));
    WhereMembers(db.bills, NotOwnedBy(db, propertyId));
    WhereSublist(db.bills, NotOwnedBy(db, propertyId));
    WhereSublist(db.subscriptions, KeyIsNot(SubscriptionOwner, propertyId));
    assert forall i :: 0 <= i < |db.bills| && !OwnedBy(db, propertyId)(db.bills[i]) ==> NotOwnedBy(db, propertyId)(db.bills[i]);
    assert forall i :: 0 <= i < |bills| ==> NotOwnedBy(db, propertyId)(bills[i]);
    db.(subscriptions := Where(db.subscriptions, KeyIsNot(SubscriptionOwner, propertyId)), bills := bills)
  }

  /** `deleteShareholder`. */
  function DeleteShareholder(db: Db, e: ShareholderEntity): (r: Db)
    ensures GetShareholderById(r, e.id).None?
    ensures forall q :: q != e.id ==> GetShareholderById(r, q) == GetShareholderById(db, q)
    ensures forall p :: GetShareholdersByPropertyId(r, p) == Where(GetShareholdersByPropertyId(db, p), KeyIsNot(ShareholderKey, e.id))
    ensures r.(shareholders := db.shareholders) == db
  {
    FindOtherKeys(db.shareholders, ShareholderKey, e.id);
    var r := db.(shareholders := Where(db.shareholders, KeyIsNot(ShareholderKey, e.id)));
    assert forall p :: GetShareholdersByPropertyId(r, p) == Where(GetShareholdersByPropertyId(db, p), KeyIsNot(ShareholderKey, e.id)) by {
      forall p ensures GetShareholdersByPropertyId(r, p) == Where(GetShareholdersByPropertyId(db, p), KeyIsNot(ShareholderKey, e.id)) {
        WhereCommute(db.shareholders, KeyIsNot(ShareholderKey, e.id), KeyIs(ShareholderOwner, p));
      }
    }
    r
  }

  /** `deleteShareholdersByPropertyId`: exactly that property's shareholders go. */
  function DeleteShareholdersByPropertyId(db: Db, propertyId: string): (r: Db)
    ensures GetShareholdersByPropertyId(r, propertyId) == []
    ensures forall q :: q != propertyId ==> GetShareholdersByPropertyId(r, q) == GetShareholdersByPropertyId(db, q)
    ensures IsSublist(r.shareholders, db.shareholders)
    ensures r.(shareholders := db.shareholders) == db
  {
    WhereOtherKeys(db.shareholders, ShareholderOwner, propertyId);
    WhereSublist(db.shareholders, KeyIsNot(ShareholderOwner, propertyId));
    db.(shareholders := Where(db.shareholders, KeyIsNot(ShareholderOwner, propertyId)))
  }

  /** `deletePropertyById`: the row goes and, by cascade, its subscriptions,
      their bills and its shareholders; other properties keep everything. */
  function DeletePropertyById(db: Db, id: string): (r: Db)
    ensures GetPropertyById(r, id).None?
    ensures GetSubscriptionsByPropertyId(r, id) == [] && GetShareholdersByPropertyId(r, id) == []
    ensures GetBillsByPropertyId(r, id) == []
    ensures forall i :: 0 <= i < |r.bills| ==> !OwnedBy(db, id)(r.bills[i])
    ensures forall q :: q != id ==> GetPropertyById(r, q) == GetPropertyById(db, q)
    ensures forall q :: q != id ==> GetSubscriptionsByPropertyId(r, q) == GetSubscriptionsByPropertyId(db, q)
    ensures forall q :: q != id ==> GetShareholdersByPropertyId(r, q) == GetShareholdersByPropertyId(db, q)
    ensures r.nextSubscriptionId == db.nextSubscriptionId && r.nextBillId == db.nextBillId
    ensures r.nextShareholderId == db.nextShareholderId && r.replaceCascades == db.replaceCascades
  {
    FindOtherKeys(db.properties, PropertyKey, id);
    var d1 := DeleteSubscriptionsByPropertyId(db, id);
    var d2 := DeleteShareholdersByPropertyId(d1, id);
    var r := d2.(properties := Where(db.properties, KeyIsNot(PropertyKey, id)));
    assert r.subscriptions == d1.subscriptions && r.bills == d1.bills;
    assert forall q :: GetSubscriptionsByPropertyId(r, q) == GetSubscriptionsByPropertyId(d1, q);
    assert forall q :: GetShareholdersByPropertyId(r, q) == GetShareholdersByPropertyId(d2, q);
    NoSubscriptionsNoBills(r, id);
    r
  }

  /** A property without subscription rows has no bills in the join. */
  lemma NoSubscriptionsNoBills(db: Db, propertyId: string)
    requires GetSubscriptionsByPropertyId(db, propertyId) == []
    ensures GetBillsByPropertyId(db, propertyId) == []
  {
    forall i | 0 <= i < |db.bills| ensures !OwnedBy(db, propertyId)(db.bills[i]) { }
    WhereNone(db.bills, OwnedBy(db, propertyId));
  }

  /** `deleteProperty` (`@Delete` matches on the primary key only). */
  function DeleteProperty(db: Db, e: PropertyEntity): (r: Db)
    ensures GetPropertyById(r, e.id).None?
    ensures forall e2: PropertyEntity :: e2.id == e.id ==> r == DeletePropertyById(db, e2.id)
  {
    DeletePropertyById(db, e.id)
  }

  // ---- inserts and updates ----

  /** `insertProperty` with REPLACE: afterwards the row with `e.id` is `e`
      and is the last row (a replaced row gets a new rowid); the other rows
      keep their order. Whether the replaced row's children survive is
      `replaceCascades`; for a new id nothing else changes. */
  function InsertProperty(db: Db, e: PropertyEntity): (r: Db)
    ensures GetPropertyById(r, e.id) == Some(e) && r.properties[|r.properties| - 1] == e
    ensures Where(r.properties, KeyIsNot(PropertyKey, e.id)) == Where(db.properties, KeyIsNot(PropertyKey, e.id))
    ensures !HasKey(db.properties, PropertyKey, e.id) ==> r == db.(properties := db.properties + [e])
    ensures !db.replaceCascades ==> r.(properties := db.properties) == db
    ensures db.replaceCascades && HasKey(db.properties, PropertyKey, e.id) ==>
      r == DeletePropertyById(db, e.id).(properties := r.properties)
  {
    var base := if db.replaceCascades && HasKey(db.properties, PropertyKey, e.id) then DeletePropertyById(db, e.id) else db;
    var kept := Where(db.properties, KeyIsNot(PropertyKey, e.id));
    FindOtherKeys(db.properties, PropertyKey, e.id);
    FindLast(kept, PropertyKey, e);
    WhereConcat(kept, [e], KeyIsNot(PropertyKey, e.id));
    WhereWhereSame(db.properties, KeyIsNot(PropertyKey, e.id));
    if !HasKey(db.properties, PropertyKey, e.id) then
      WhereAll(db.properties, KeyIsNot(PropertyKey, e.id));
      base.(properties := kept + [e])
    else
      base.(properties := kept + [e])
  }

  /** `updateProperty`: the row with `e.id` becomes `e` in place; with no
      such row nothing happens. Child tables are untouched. */
  function UpdateProperty(db: Db, e: PropertyEntity): (r: Db)
    ensures !HasKey(db.properties, PropertyKey, e.id) ==> r == db
    ensures HasKey(db.properties, PropertyKey, e.id) ==> GetPropertyById(r, e.id) == Some(e)
    ensures |r.properties| == |db.properties|
    ensures forall i :: 0 <= i < |db.properties| ==>
      r.properties[i] == if db.properties[i].id == e.id then e else db.properties[i]
    ensures r.(properties := db.properties) == db
  {
    if HasKey(db.properties, PropertyKey, e.id) then
      UpdatedRowFound(db, e);
      db.(properties := ReplaceKey(db.properties, PropertyKey, e.id, e))
    else db
  }

  lemma UpdatedRowFound(db: Db, e: PropertyEntity)
    requires HasKey(db.properties, PropertyKey, e.id)
    ensures GetPropertyById(db.(properties := ReplaceKey(db.properties, PropertyKey, e.id, e)), e.id) == Some(e)
  {
    ReplaceKeyFind(db.properties, PropertyKey, e);
  }

  /** The key a generated-key insert uses: the next one for 0, else the given one. */
  function IssuedId(id: int, next: int): int { if id == 0 then next else id }

  /** `insertSubscription` with REPLACE: fails if the property row is missing;
      otherwise the row is stored under the issued key (in place if the key
      exists) and that key is returned. */
  function InsertSubscription(db: Db, e: SubscriptionEntity): (r: Outcome<int>)
    ensures r.result.Err? <==> !HasKey(db.properties, PropertyKey, e.propertyId)
    ensures r.result.Err? ==> r == Outcome(db, Err(ConstraintViolation))
    ensures r.result.Ok? ==> var id := r.result.value;
      && id == IssuedId(e.id, db.nextSubscriptionId)
      && GetSubscriptionById(r.db, id) == Some(e.(id := id))
      && Where(r.db.subscriptions, KeyIsNot(SubscriptionKey, id)) == Where(db.subscriptions, KeyIsNot(SubscriptionKey, id))
      && r.db.nextSubscriptionId == Max(db.nextSubscriptionId, id + 1)
      && (!db.replaceCascades || !HasKey(db.subscriptions, SubscriptionKey, id) ==> r.db.bills == db.bills)
      && (db.replaceCascades && HasKey(db.subscriptions, SubscriptionKey, id) ==>
            r.db.bills == Where(db.bills, KeyIsNot(BillOwner, id)))
    ensures r.db.(subscriptions := db.subscriptions, bills := db.bills, nextSubscriptionId := db.nextSubscriptionId) == db
    ensures KeysIssued(db) && e.id == 0 && r.result.Ok? ==>
      r.db == db.(subscriptions := db.subscriptions + [e.(id := db.nextSubscriptionId)],
                  nextSubscriptionId := db.nextSubscriptionId + 1)
  {
    if !HasKey(db.properties, PropertyKey, e.propertyId) then Outcome(db, Err(ConstraintViolation))
    else
      var id := IssuedId(e.id, db.nextSubscriptionId);
      var existing := HasKey(db.subscriptions, SubscriptionKey, id);
      var bills := if db.replaceCascades && existing then Where(db.bills, KeyIsNot(BillOwner, id)) else db.bills;
      assert KeysIssued(db) && e.id == 0 ==> !existing;
      Outcome(db.(subscriptions := Upsert(db.subscriptions, SubscriptionKey, e.(id := id)),
                  bills := bills,
                  nextSubscriptionId := Max(db.nextSubscriptionId, id + 1)),
              Ok(id))
  }

  /** `updateSubscription`: the row with `e.id` becomes `e` in place; with no
      such row nothing happens; a missing new parent fails and changes nothing. */
  function UpdateSubscription(db: Db, e: SubscriptionEntity): (r: Outcome<()>)
    ensures !HasKey(db.subscriptions, SubscriptionKey, e.id) ==> r == Outcome(db, Ok(()))
    ensures HasKey(db.subscriptions, SubscriptionKey, e.id) ==>
      (r.result.Err? <==> !HasKey(db.properties, PropertyKey, e.propertyId))
    ensures r.result.Err? ==> r == Outcome(db, Err(ConstraintViolation))
    ensures r.result.Ok? && HasKey(db.subscriptions, SubscriptionKey, e.id) ==>
      r.db == db.(subscriptions := ReplaceKey(db.subscriptions, SubscriptionKey, e.id, e))
  {
    if !HasKey(db.subscriptions, SubscriptionKey, e.id) then Outcome(db, Ok(()))
    else if !HasKey(db.properties, PropertyKey, e.propertyId) then Outcome(db, Err(ConstraintViolation))
    else Outcome(db.(subscriptions := ReplaceKey(db.subscriptions, SubscriptionKey, e.id, e)), Ok(()))
  }

  /** `insertBill` with REPLACE: fails if the subscription row is missing;
      otherwise the row is stored under the issued key, in place if the key exists. */
  function InsertBill(db: Db, e: ElectricityBillEntity): (r: Outcome<()>)
    ensures r.result.Err? <==> !HasKey(db.subscriptions, SubscriptionKey, e.subscriptionId)
    ensures r.result.Err? ==> r == Outcome(db, Err(ConstraintViolation))
    ensures r.result.Ok? ==> var id := IssuedId(e.id, db.nextBillId);
      && GetBillById(r.db, id) == Some(e.(id := id))
      && Where(r.db.bills, KeyIsNot(BillKey, id)) == Where(db.bills, KeyIsNot(BillKey, id))
      && r.db.nextBillId == Max(db.nextBillId, id + 1)
    ensures r.db.(bills := db.bills, nextBillId := db.nextBillId) == db
    ensures KeysIssued(db) && e.id == 0 && r.result.Ok? ==>
      r.db == db.(bills := db.bills + [e.(id := db.nextBillId)], nextBillId := db.nextBillId + 1)
  {
    if !HasKey(db.subscriptions, SubscriptionKey, e.subscriptionId) then Outcome(db, Err(ConstraintViolation))
    else
      var id := IssuedId(e.id, db.nextBillId);
      assert KeysIssued(db) && e.id == 0 ==> !HasKey(db.bills, BillKey, id);
      Outcome(db.(bills := Upsert(db.bills, BillKey, e.(id := id)), nextBillId := Max(db.nextBillId, id + 1)), Ok(()))
  }

  /** `updateBill`: the row with `e.id` becomes `e` in place; with no such
      row nothing happens; a missing new parent fails and changes nothing. */
  function UpdateBill(db: Db, e: ElectricityBillEntity): (r: Outcome<()>)
    ensures !HasKey(db.bills, BillKey, e.id) ==> r == Outcome(db, Ok(()))
    ensures HasKey(db.bills, BillKey, e.id) ==>
      (r.result.Err? <==> !HasKey(db.subscriptions, SubscriptionKey, e.subscriptionId))
    ensures r.result.Err? ==> r == Outcome(db, Err(ConstraintViolation))
    ensures r.result.Ok? && HasKey(db.bills, BillKey, e.id) ==> r.db == db.(bills := ReplaceKey(db.bills, BillKey, e.id, e))
  {
    if !HasKey(db.bills, BillKey, e.id) then Outcome(db, Ok(()))
    else if !HasKey(db.subscriptions, SubscriptionKey, e.subscriptionId) then Outcome(db, Err(ConstraintViolation))
    else
      Outcome(db.(bills := ReplaceKey(db.bills, BillKey, e.id, e)), Ok(()))
  }

  /** `insertShareholder` with REPLACE: fails if the property row is missing;
      otherwise the row is stored under the issued key, in place if the key exists. */
  function InsertShareholder(db: Db, e: ShareholderEntity): (r: Outcome<()>)
    ensures r.result.Err? <==> !HasKey(db.properties, PropertyKey, e.propertyId)
    ensures r.result.Err? ==> r == Outcome(db, Err(ConstraintViolation))
    ensures r.result.Ok? ==> var id := IssuedId(e.id, db.nextShareholderId);
      && GetShareholderById(r.db, id) == Some(e.(id := id))
      && Where(r.db.shareholders, KeyIsNot(ShareholderKey, id)) == Where(db.shareholders, KeyIsNot(ShareholderKey, id))
      && r.db.nextShareholderId == Max(db.nextShareholderId, id + 1)
    ensures r.db.(shareholders := db.shareholders, nextShareholderId := db.nextShareholderId) == db
    ensures KeysIssued(db) && e.id == 0 && r.result.Ok? ==>
      r.db == db.(shareholders := db.shareholders + [e.(id := db.nextShareholderId)],
                  nextShareholderId := db.nextShareholderId + 1)
  {
    if !HasKey(db.properties, PropertyKey, e.propertyId) then Outcome(db, Err(ConstraintViolation))
    else
      var id := IssuedId(e.id, db.nextShareholderId);
      assert KeysIssued(db) && e.id == 0 ==> !HasKey(db.shareholders, ShareholderKey, id);
      Outcome(db.(shareholders := Upsert(db.shareholders, ShareholderKey, e.(id := id)),
                  nextShareholderId := Max(db.nextShareholderId, id + 1)), Ok(()))
  }

  /** `updateShareholder`: the row with `e.id` becomes `e` in place; with no
      such row nothing happens; a missing new parent fails and changes nothing. */
  function UpdateShareholder(db: Db, e: ShareholderEntity): (r: Outcome<()>)
    ensures !HasKey(db.shareholders, ShareholderKey, e.id) ==> r == Outcome(db, Ok(()))
    ensures HasKey(db.shareholders, ShareholderKey, e.id) ==>
      (r.result.Err? <==> !HasKey(db.properties, PropertyKey, e.propertyId))
    ensures r.result.Err? ==> r == Outcome(db, Err(ConstraintViolation))
    ensures r.result.Ok? && HasKey(db.shareholders, ShareholderKey, e.id) ==> r.db == db.(shareholders := ReplaceKey(db.shareholders, ShareholderKey, e.id, e))
  {
    if !HasKey(db.shareholders, ShareholderKey, e.id) then Outcome(db, Ok(()))
    else if !HasKey(db.properties, PropertyKey, e.propertyId) then Outcome(db, Err(ConstraintViolation))
    else
      Outcome(db.(shareholders := ReplaceKey(db.shareholders, ShareholderKey, e.id, e)), Ok(()))
  }

  /** After an update of an existing row, reading its key gives the new row
      and reading any other key gives what it gave before. */
  lemma UpdateBillReadBack(db: Db, e: ElectricityBillEntity)
    requires HasKey(db.bills, BillKey, e.id) && HasKey(db.subscriptions, SubscriptionKey, e.subscriptionId)
    ensures GetBillById(UpdateBill(db, e).db, e.id) == Some(e)
    ensures forall k :: k != e.id ==> GetBillById(UpdateBill(db, e).db, k) == GetBillById(db, k)
  {
    ReplaceKeyFacts(db.bills, BillKey, e);
    forall k | k != e.id ensures GetBillById(UpdateBill(db, e).db, k) == GetBillById(db, k) {
      FindReplaceOther(db.bills, BillKey, e, k);
    }
  }

  lemma UpdateShareholderReadBack(db: Db, e: ShareholderEntity)
    requires HasKey(db.shareholders, ShareholderKey, e.id) && HasKey(db.properties, PropertyKey, e.propertyId)
    ensures GetShareholderById(UpdateShareholder(db, e).db, e.id) == Some(e)
    ensures forall k :: k != e.id ==> GetShareholderById(UpdateShareholder(db, e).db, k) == GetShareholderById(db, k)
  {
    ReplaceKeyFacts(db.shareholders, ShareholderKey, e);
    forall k | k != e.id ensures GetShareholderById(UpdateShareholder(db, e).db, k) == GetShareholderById(db, k) {
      FindReplaceOther(db.shareholders, ShareholderKey, e, k);
    }
  }

  lemma UpdateSubscriptionReadBack(db: Db, e: SubscriptionEntity)
    requires HasKey(db.subscriptions, SubscriptionKey, e.id) && HasKey(db.properties, PropertyKey, e.propertyId)
    ensures GetSubscriptionById(UpdateSubscription(db, e).db, e.id) == Some(e)
    ensures forall k :: k != e.id ==> GetSubscriptionById(UpdateSubscription(db, e).db, k) == GetSubscriptionById(db, k)
  {
    ReplaceKeyFacts(db.subscriptions, SubscriptionKey, e);
    forall k | k != e.id ensures GetSubscriptionById(UpdateSubscription(db, e).db, k) == GetSubscriptionById(db, k) {
      FindReplaceOther(db.subscriptions, SubscriptionKey, e, k);
    }
  }
}
