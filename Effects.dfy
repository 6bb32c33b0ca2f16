/** What the repository's writes do to the database, as functions from
    state to state. Each `forEach` of the repository is a fold over its
    list, front to back, that stops at the first failing DAO call (the
    exception propagates and the writes already made stay, as there is no
    enclosing transaction). Under the schema's constraints each fold has a
    closed form: the rows it appends, with the keys the counters issue. */
module Effects {
  import opened Wrappers
  import opened Domain
  import opened Entities
  import opened Mappers
  import opened Tables
  import opened Store
  import StoreValid

  // ---- the rows a write appends ----

  /** The bill rows for `bills` under subscription `sid`, keys from `base`. */
  function BillRows(bills: seq<ElectricityBill>, sid: int, base: int): (r: seq<ElectricityBillEntity>)
    ensures |r| == |bills|
    decreases |bills|
  {
    if bills == [] then []
    else [ToElectricityBillEntity(bills[0], sid).(id := base)] + BillRows(bills[1..], sid, base + 1)
  }

  /** The subscription rows for `subs` under property `pid`, keys from `base`. */
  function SubscriptionRows(subs: seq<Subscription>, pid: string, base: int): (r: seq<SubscriptionEntity>)
    ensures |r| == |subs|
    decreases |subs|
  {
    if subs == [] then []
    else [ToSubscriptionEntity(subs[0], pid).(id := base)] + SubscriptionRows(subs[1..], pid, base + 1)
  }

  /** The shareholder rows for `holders` under property `pid`, keys from `base`. */
  function ShareholderRows(holders: seq<Shareholder>, pid: string, base: int): (r: seq<ShareholderEntity>)
    ensures |r| == |holders|
    decreases |holders|
  {
    if holders == [] then []
    else [ToShareholderEntity(holders[0], pid).(id := base)] + ShareholderRows(holders[1..], pid, base + 1)
  }

  lemma SingleSubscriptionRow(s: Subscription, pid: string, base: int)
    ensures SubscriptionRows([s], pid, base) == [ToSubscriptionEntity(s, pid).(id := base)]
  {
    assert [s][1..] == [];
  }

  lemma BillRowsSnoc(prefix: seq<ElectricityBillEntity>, bills: seq<ElectricityBill>, sid: int, base: int)
    requires bills != []
    ensures (prefix + [ToElectricityBillEntity(bills[0], sid).(id := base)]) + BillRows(bills[1..], sid, base + 1)
      == prefix + BillRows(bills, sid, base)
  {
    AppendAssoc(prefix, [ToElectricityBillEntity(bills[0], sid).(id := base)], BillRows(bills[1..], sid, base + 1));
  }

  lemma BillsStep(db: Db, d1: Db, bills: seq<ElectricityBill>, sid: int)
    requires bills != []
    requires d1 == db.(bills := db.bills + [ToElectricityBillEntity(bills[0], sid).(id := db.nextBillId)], nextBillId := db.nextBillId + 1)
    ensures WithBills(d1, bills[1..], sid) == WithBills(db, bills, sid)
  {
    BillRowsSnoc(db.bills, bills, sid, db.nextBillId);
  }

  lemma ShareholdersStep(db: Db, d1: Db, holders: seq<Shareholder>, pid: string)
    requires holders != []
    requires d1 == db.(shareholders := db.shareholders + [ToShareholderEntity(holders[0], pid).(id := db.nextShareholderId)],
                       nextShareholderId := db.nextShareholderId + 1)
    ensures WithShareholders(d1, pid, holders[1..]) == WithShareholders(db, pid, holders)
  {
    AppendAssoc(db.shareholders, [ToShareholderEntity(holders[0], pid).(id := db.nextShareholderId)],
      ShareholderRows(holders[1..], pid, db.nextShareholderId + 1));
  }

  lemma SubscriptionsStep(db: Db, d1: Db, subs: seq<Subscription>, pid: string)
    requires subs != []
    requires d1 == WithSubscriptions(db, pid, [subs[0]])
    ensures WithSubscriptions(d1, pid, subs[1..]) == WithSubscriptions(db, pid, subs)
  {
    var sid, bid := db.nextSubscriptionId, db.nextBillId;
    var n := |subs[0].electricityBills|;
    OneSubscription(db, db.(subscriptions := db.subscriptions + [ToSubscriptionEntity(subs[0], pid).(id := sid)],
                            nextSubscriptionId := sid + 1), pid, subs[0]);
    assert d1.subscriptions == db.subscriptions + [ToSubscriptionEntity(subs[0], pid).(id := sid)];
    assert d1.bills == db.bills + BillRows(subs[0].electricityBills, sid, bid);
    assert d1.nextSubscriptionId == sid + 1 && d1.nextBillId == bid + n;
    SubscriptionRowsStep(db.subscriptions, subs, pid, sid);
    AllBillRowsStep(db.bills, subs, sid, bid);
  }

  lemma SubscriptionRowsStep(prefix: seq<SubscriptionEntity>, subs: seq<Subscription>, pid: string, base: int)
    requires subs != []
    ensures (prefix + [ToSubscriptionEntity(subs[0], pid).(id := base)]) + SubscriptionRows(subs[1..], pid, base + 1)
      == prefix + SubscriptionRows(subs, pid, base)
  {
    AppendAssoc(prefix, [ToSubscriptionEntity(subs[0], pid).(id := base)], SubscriptionRows(subs[1..], pid, base + 1));
  }

  lemma AllBillRowsStep(prefix: seq<ElectricityBillEntity>, subs: seq<Subscription>, sid: int, bid: int)
    requires subs != []
    ensures (prefix + BillRows(subs[0].electricityBills, sid, bid)) + AllBillRows(subs[1..], sid + 1, bid + |subs[0].electricityBills|)
      == prefix + AllBillRows(subs, sid, bid)
  {
    AppendAssoc(prefix, BillRows(subs[0].electricityBills, sid, bid), AllBillRows(subs[1..], sid + 1, bid + |subs[0].electricityBills|));
  }

  lemma OneSubscription(db: Db, d1: Db, pid: string, s: Subscription)
    requires d1 == db.(subscriptions := db.subscriptions + [ToSubscriptionEntity(s, pid).(id := db.nextSubscriptionId)],
                       nextSubscriptionId := db.nextSubscriptionId + 1)
    ensures WithSubscriptions(db, pid, [s]) == WithBills(d1, s.electricityBills, db.nextSubscriptionId)
  {
    SingleSubscriptionRow(s, pid, db.nextSubscriptionId);
    assert [s][1..] == [];
    assert AllBillRows([s], db.nextSubscriptionId, db.nextBillId) == BillRows(s.electricityBills, db.nextSubscriptionId, db.nextBillId);
    assert TotalBills([s]) == |s.electricityBills|;
  }

  lemma AppendAssoc<T>(a: seq<T>, b: seq<T>, c: seq<T>)
    ensures (a + b) + c == a + (b + c)
  {
  }

  /** The number of bills over all of `subs`. */
  function TotalBills(subs: seq<Subscription>): nat
  {
    if subs == [] then 0 else |subs[0].electricityBills| + TotalBills(subs[1..])
  }

  /** The bill rows of every subscription in turn: subscription j gets key
      `sbase + j`, and its bills the keys after those of the earlier ones. */
  function AllBillRows(subs: seq<Subscription>, sbase: int, bbase: int): seq<ElectricityBillEntity>
  {
    if subs == [] then []
    else
      BillRows(subs[0].electricityBills, sbase, bbase)
        + AllBillRows(subs[1..], sbase + 1, bbase + |subs[0].electricityBills|)
  }

  /** `db` with the rows of `bills` appended under subscription `sid`. */
  function WithBills(db: Db, bills: seq<ElectricityBill>, sid: int): Db
  {
    db.(bills := db.bills + BillRows(bills, sid, db.nextBillId), nextBillId := db.nextBillId + |bills|)
  }

  /** `db` with the rows of `subs` and of their bills appended under property `pid`. */
  function WithSubscriptions(db: Db, pid: string, subs: seq<Subscription>): Db
  {
    db.(subscriptions := db.subscriptions + SubscriptionRows(subs, pid, db.nextSubscriptionId),
        bills := db.bills + AllBillRows(subs, db.nextSubscriptionId, db.nextBillId),
        nextSubscriptionId := db.nextSubscriptionId + |subs|,
        nextBillId := db.nextBillId + TotalBills(subs))
  }

  /** `db` with the rows of `holders` appended under property `pid`. */
  function WithShareholders(db: Db, pid: string, holders: seq<Shareholder>): Db
  {
    db.(shareholders := db.shareholders + ShareholderRows(holders, pid, db.nextShareholderId),
        nextShareholderId := db.nextShareholderId + |holders|)
  }

  /** The whole aggregate of `p` appended under fresh keys. */
  function AppendChildren(d: Db, p: Property): Db
  {
    WithShareholders(WithSubscriptions(d, p.id, p.subscriptions), p.id, p.shareholders)
  }

  // ---- the folds ----

  /** `subscription.electricityBills.forEach { insertBill(bill.toElectricityBillEntity(subscriptionId)) }`. */
  function AddBills(db: Db, bills: seq<ElectricityBill>, sid: int): (o: Outcome<()>)
    ensures bills == [] ==> o == Outcome(db, Ok(()))
    ensures !HasKey(db.subscriptions, SubscriptionKey, sid) && bills != [] ==> o == Outcome(db, Err(ConstraintViolation))
    ensures o.db.(bills := db.bills, nextBillId := db.nextBillId) == db
    decreases |bills|
  {
    if bills == [] then Outcome(db, Ok(()))
    else
      var o := InsertBill(db, ToElectricityBillEntity(bills[0], sid));
      if o.result.Err? then o else AddBills(o.db, bills[1..], sid)
  }

  /** `addSubscriptionToProperty`, which is also the body of the outer loop
      of `insertProperty` and `updateProperty`: the subscription row first,
      then its bills under the key it was given. */
  function AddSubscription(db: Db, pid: string, s: Subscription): (o: Outcome<()>)
    ensures !HasKey(db.properties, PropertyKey, pid) ==> o == Outcome(db, Err(ConstraintViolation))
    ensures o.db.(subscriptions := db.subscriptions, bills := db.bills,
                  nextSubscriptionId := db.nextSubscriptionId, nextBillId := db.nextBillId) == db
  {
    var o := InsertSubscription(db, ToSubscriptionEntity(s, pid));
    if o.result.Err? then Outcome(o.db, Err(ConstraintViolation))
    else AddBills(o.db, s.electricityBills, o.result.value)
  }

  /** `property.subscriptions.forEach { … }`. */
  function AddSubscriptions(db: Db, pid: string, subs: seq<Subscription>): (o: Outcome<()>)
    ensures subs == [] ==> o == Outcome(db, Ok(()))
    ensures !HasKey(db.properties, PropertyKey, pid) && subs != [] ==> o == Outcome(db, Err(ConstraintViolation))
    ensures o.db.(subscriptions := db.subscriptions, bills := db.bills,
                  nextSubscriptionId := db.nextSubscriptionId, nextBillId := db.nextBillId) == db
    decreases |subs|
  {
    if subs == [] then Outcome(db, Ok(()))
    else
      var o := AddSubscription(db, pid, subs[0]);
      if o.result.Err? then o else AddSubscriptions(o.db, pid, subs[1..])
  }

  /** `property.shareholders.forEach { insertShareholder(…) }`. */
  function AddShareholders(db: Db, pid: string, holders: seq<Shareholder>): (o: Outcome<()>)
    ensures holders == [] ==> o == Outcome(db, Ok(()))
    ensures !HasKey(db.properties, PropertyKey, pid) && holders != [] ==> o == Outcome(db, Err(ConstraintViolation))
    ensures o.db.(shareholders := db.shareholders, nextShareholderId := db.nextShareholderId) == db
    decreases |holders|
  {
    if holders == [] then Outcome(db, Ok(()))
    else
      var o := InsertShareholder(db, ToShareholderEntity(holders[0], pid));
      if o.result.Err? then o else AddShareholders(o.db, pid, holders[1..])
  }

  /** One step of each fold: the first write, then the rest unless it threw. */
  lemma AddBillsStep(db: Db, bills: seq<ElectricityBill>, sid: int)
    requires bills != []
    ensures var o := InsertBill(db, ToElectricityBillEntity(bills[0], sid));
      AddBills(db, bills, sid) == if o.result.Err? then o else AddBills(o.db, bills[1..], sid)
  {
  }

  lemma AddSubscriptionsStep(db: Db, pid: string, subs: seq<Subscription>)
    requires subs != []
    ensures var o := AddSubscription(db, pid, subs[0]);
      AddSubscriptions(db, pid, subs) == if o.result.Err? then o else AddSubscriptions(o.db, pid, subs[1..])
  {
  }

  lemma AddShareholdersStep(db: Db, pid: string, holders: seq<Shareholder>)
    requires holders != []
    ensures var o := InsertShareholder(db, ToShareholderEntity(holders[0], pid));
      AddShareholders(db, pid, holders) == if o.result.Err? then o else AddShareholders(o.db, pid, holders[1..])
  {
  }

  lemma AddBillsEmpty(db: Db, sid: int)
    ensures AddBills(db, [], sid) == Outcome(db, Ok(()))
  {
  }

  lemma AddSubscriptionsEmpty(db: Db, pid: string)
    ensures AddSubscriptions(db, pid, []) == Outcome(db, Ok(()))
  {
  }

  lemma AddShareholdersEmpty(db: Db, pid: string)
    ensures AddShareholders(db, pid, []) == Outcome(db, Ok(()))
  {
  }

  // ---- closed forms ----

  /** One insert of a new bill row: appended under the next key. */
  lemma InsertBillAppends(db: Db, e: ElectricityBillEntity)
    requires KeysIssued(db) && e.id == 0 && HasKey(db.subscriptions, SubscriptionKey, e.subscriptionId)
    ensures InsertBill(db, e) == Outcome(db.(bills := db.bills + [e.(id := db.nextBillId)], nextBillId := db.nextBillId + 1), Ok(()))
    ensures KeysIssued(InsertBill(db, e).db)
  {
    IdsBelowConcat(db.bills, [e.(id := db.nextBillId)], BillKey, db.nextBillId, db.nextBillId + 1);
  }

  /** With the subscription present every bill insert succeeds, and the rows
      are appended in order under consecutive fresh keys. */
  lemma {:induction false} AddBillsAppends(db: Db, bills: seq<ElectricityBill>, sid: int)
    requires KeysIssued(db) && HasKey(db.subscriptions, SubscriptionKey, sid)
    ensures AddBills(db, bills, sid) == Outcome(WithBills(db, bills, sid), Ok(()))
    ensures KeysIssued(WithBills(db, bills, sid))
    decreases |bills|
  {
    if bills == [] {
      assert db.bills + BillRows(bills, sid, db.nextBillId) == db.bills;
    } else {
      var e := ToElectricityBillEntity(bills[0], sid);
      var d1 := db.(bills := db.bills + [e.(id := db.nextBillId)], nextBillId := db.nextBillId + 1);
      assert AddBills(db, bills, sid) == AddBills(d1, bills[1..], sid) && KeysIssued(d1) by {
        InsertBillAppends(db, e);
      }
      AddBillsAppends(d1, bills[1..], sid);
      BillsStep(db, d1, bills, sid);
    }
  }

  /** One insert of a new subscription row: appended under the next key, which it returns. */
  lemma InsertSubscriptionAppends(db: Db, e: SubscriptionEntity)
    requires KeysIssued(db) && e.id == 0 && HasKey(db.properties, PropertyKey, e.propertyId)
    ensures InsertSubscription(db, e) == Outcome(db.(subscriptions := db.subscriptions + [e.(id := db.nextSubscriptionId)],
                                                     nextSubscriptionId := db.nextSubscriptionId + 1), Ok(db.nextSubscriptionId))
    ensures KeysIssued(InsertSubscription(db, e).db)
    ensures HasKey(InsertSubscription(db, e).db.subscriptions, SubscriptionKey, db.nextSubscriptionId)
  {
    var row := e.(id := db.nextSubscriptionId);
    IdsBelowConcat(db.subscriptions, [row], SubscriptionKey, db.nextSubscriptionId, db.nextSubscriptionId + 1);
    assert (db.subscriptions + [row])[|db.subscriptions|] == row;
  }

  /** With the property present, the subscription row is appended under the
      next key and its bills under that key after it. */
  lemma AddSubscriptionAppends(db: Db, pid: string, s: Subscription)
    requires KeysIssued(db) && HasKey(db.properties, PropertyKey, pid)
    ensures AddSubscription(db, pid, s) == Outcome(WithSubscriptions(db, pid, [s]), Ok(()))
    ensures KeysIssued(WithSubscriptions(db, pid, [s]))
  {
    var e := ToSubscriptionEntity(s, pid);
    var d1 := db.(subscriptions := db.subscriptions + [e.(id := db.nextSubscriptionId)],
                  nextSubscriptionId := db.nextSubscriptionId + 1);
    assert AddSubscription(db, pid, s) == AddBills(d1, s.electricityBills, db.nextSubscriptionId)
      && KeysIssued(d1) && HasKey(d1.subscriptions, SubscriptionKey, db.nextSubscriptionId) by {
      InsertSubscriptionAppends(db, e);
    }
    AddBillsAppends(d1, s.electricityBills, db.nextSubscriptionId);
    OneSubscription(db, d1, pid, s);
  }

  /** With the property present, every subscription and bill is appended in
      order: subscription j under the j-th fresh key, its bills after the
      earlier subscriptions' bills. */
  lemma {:induction false} AddSubscriptionsAppend(db: Db, pid: string, subs: seq<Subscription>)
    requires KeysIssued(db) && HasKey(db.properties, PropertyKey, pid)
    ensures AddSubscriptions(db, pid, subs) == Outcome(WithSubscriptions(db, pid, subs), Ok(()))
    ensures KeysIssued(WithSubscriptions(db, pid, subs))
    decreases |subs|
  {
    if subs == [] {
      assert db.subscriptions + SubscriptionRows(subs, pid, db.nextSubscriptionId) == db.subscriptions;
      assert db.bills + AllBillRows(subs, db.nextSubscriptionId, db.nextBillId) == db.bills;
    } else {
      var d1 := WithSubscriptions(db, pid, [subs[0]]);
      assert AddSubscriptions(db, pid, subs) == AddSubscriptions(d1, pid, subs[1..])
        && KeysIssued(d1) && HasKey(d1.properties, PropertyKey, pid) by {
        AddSubscriptionAppends(db, pid, subs[0]);
      }
      AddSubscriptionsAppend(d1, pid, subs[1..]);
      SubscriptionsStep(db, d1, subs, pid);
    }
  }

  /** One insert of a new shareholder row: appended under the next key. */
  lemma InsertShareholderAppends(db: Db, e: ShareholderEntity)
    requires KeysIssued(db) && e.id == 0 && HasKey(db.properties, PropertyKey, e.propertyId)
    ensures InsertShareholder(db, e) == Outcome(db.(shareholders := db.shareholders + [e.(id := db.nextShareholderId)],
                                                    nextShareholderId := db.nextShareholderId + 1), Ok(()))
    ensures KeysIssued(InsertShareholder(db, e).db)
  {
    IdsBelowConcat(db.shareholders, [e.(id := db.nextShareholderId)], ShareholderKey, db.nextShareholderId, db.nextShareholderId + 1);
  }

  /** With the property present every shareholder insert succeeds, and the
      rows are appended in order under consecutive fresh keys. */
  lemma {:induction false} AddShareholdersAppend(db: Db, pid: string, holders: seq<Shareholder>)
    requires KeysIssued(db) && HasKey(db.properties, PropertyKey, pid)
    ensures AddShareholders(db, pid, holders) == Outcome(WithShareholders(db, pid, holders), Ok(()))
    ensures KeysIssued(WithShareholders(db, pid, holders))
    decreases |holders|
  {
    if holders == [] {
      assert db.shareholders + ShareholderRows(holders, pid, db.nextShareholderId) == db.shareholders;
    } else {
      var e := ToShareholderEntity(holders[0], pid);
      var d1 := db.(shareholders := db.shareholders + [e.(id := db.nextShareholderId)], nextShareholderId := db.nextShareholderId + 1);
      assert AddShareholders(db, pid, holders) == AddShareholders(d1, pid, holders[1..]) && KeysIssued(d1) by {
        InsertShareholderAppends(db, e);
      }
      AddShareholdersAppend(d1, pid, holders[1..]);
      ShareholdersStep(db, d1, holders, pid);
    }
  }

  // ---- the folds keep the database valid ----

  lemma {:induction false} AddBillsValid(db: Db, bills: seq<ElectricityBill>, sid: int)
    requires Valid(db)
    ensures Valid(AddBills(db, bills, sid).db)
    decreases |bills|
  {
    if bills != [] {
      var e := ToElectricityBillEntity(bills[0], sid);
      StoreValid.InsertBillValid(db, e);
      var o := InsertBill(db, e);
      if o.result.Ok? { AddBillsValid(o.db, bills[1..], sid); }
    }
  }

  lemma AddSubscriptionValid(db: Db, pid: string, s: Subscription)
    requires Valid(db)
    ensures Valid(AddSubscription(db, pid, s).db)
  {
    var e := ToSubscriptionEntity(s, pid);
    StoreValid.InsertSubscriptionValid(db, e);
    var o := InsertSubscription(db, e);
    if o.result.Ok? { AddBillsValid(o.db, s.electricityBills, o.result.value); }
  }

  lemma {:induction false} AddSubscriptionsValid(db: Db, pid: string, subs: seq<Subscription>)
    requires Valid(db)
    ensures Valid(AddSubscriptions(db, pid, subs).db)
    decreases |subs|
  {
    if subs != [] {
      AddSubscriptionValid(db, pid, subs[0]);
      var o := AddSubscription(db, pid, subs[0]);
      if o.result.Ok? { AddSubscriptionsValid(o.db, pid, subs[1..]); }
    }
  }

  lemma {:induction false} AddShareholdersValid(db: Db, pid: string, holders: seq<Shareholder>)
    requires Valid(db)
    ensures Valid(AddShareholders(db, pid, holders).db)
    decreases |holders|
  {
    if holders != [] {
      var e := ToShareholderEntity(holders[0], pid);
      StoreValid.InsertShareholderValid(db, e);
      var o := InsertShareholder(db, e);
      if o.result.Ok? { AddShareholdersValid(o.db, pid, holders[1..]); }
    }
  }

  // ---- the repository's writes ----

  /** `insertProperty`: the property row, then each subscription with its
      bills, then each shareholder. */
  function InsertFullProperty(db: Db, p: Property): (o: Outcome<()>)
    ensures GetPropertyById(o.db, p.id) == Some(ToPropertyEntity(p))
  {
    var d1 := InsertProperty(db, ToPropertyEntity(p));
    var o := AddSubscriptions(d1, p.id, p.subscriptions);
    if o.result.Err? then o
    else
      var o2 := AddShareholders(o.db, p.id, p.shareholders);
      assert o2.db.properties == o.db.properties == d1.properties;
      o2
  }

  /** The child tables of a property emptied, as `updateProperty` does before re-inserting. */
  function ClearChildren(db: Db, pid: string): Db
  {
    DeleteShareholdersByPropertyId(DeleteSubscriptionsByPropertyId(db, pid), pid)
  }

  /** `updateProperty`: the row updated in place, the property's
      subscriptions (with their bills) and shareholders deleted, and the
      lists inserted afresh. */
  function UpdateFullProperty(db: Db, p: Property): (o: Outcome<()>)
    ensures HasKey(db.properties, PropertyKey, p.id) ==> GetPropertyById(o.db, p.id) == Some(ToPropertyEntity(p))
  {
    var d1 := ClearChildren(UpdateProperty(db, ToPropertyEntity(p)), p.id);
    var o := AddSubscriptions(d1, p.id, p.subscriptions);
    if o.result.Err? then o
    else
      var o2 := AddShareholders(o.db, p.id, p.shareholders);
      assert o2.db.properties == o.db.properties == d1.properties;
      o2
  }

  /** Inserting a property in a valid database succeeds: the property row is
      stored and its whole aggregate appended under fresh keys. */
  lemma InsertFullPropertyAppends(db: Db, p: Property)
    requires Valid(db)
    ensures InsertFullProperty(db, p) == Outcome(AppendChildren(InsertProperty(db, ToPropertyEntity(p)), p), Ok(()))
    ensures Valid(InsertFullProperty(db, p).db)
  {
    var d1 := InsertProperty(db, ToPropertyEntity(p));
    StoreValid.InsertPropertyValid(db, ToPropertyEntity(p));
    AddChildrenAppends(d1, p);
  }

  /** Updating a stored property succeeds: the row is replaced and the old
      children give way to the new aggregate, appended under fresh keys. */
  lemma UpdateFullPropertyReplaces(db: Db, p: Property)
    requires Valid(db) && HasKey(db.properties, PropertyKey, p.id)
    ensures UpdateFullProperty(db, p) == Outcome(AppendChildren(ClearChildren(UpdateProperty(db, ToPropertyEntity(p)), p.id), p), Ok(()))
    ensures Valid(UpdateFullProperty(db, p).db)
  {
    var d0 := UpdateProperty(db, ToPropertyEntity(p));
    StoreValid.UpdatePropertyValid(db, ToPropertyEntity(p));
    ClearChildrenValid(d0, p.id);
    AddChildrenAppends(ClearChildren(d0, p.id), p);
  }

  /** Updating a property that is not stored changes nothing, and fails
      exactly when there is a child to insert (its parent row is missing). */
  lemma UpdateFullPropertyMissing(db: Db, p: Property)
    requires Valid(db) && !HasKey(db.properties, PropertyKey, p.id)
    ensures UpdateFullProperty(db, p).db == db
    ensures UpdateFullProperty(db, p).result.Ok? <==> p.subscriptions == [] && p.shareholders == []
  {
    ClearChildrenOfMissing(db, p.id);
  }

  /** The subscriptions (with bills) then the shareholders of `p` appended to
      a valid database that holds the property row. */
  lemma AddChildrenAppends(d: Db, p: Property)
    requires Valid(d) && HasKey(d.properties, PropertyKey, p.id)
    ensures var o := AddSubscriptions(d, p.id, p.subscriptions);
      o.result.Ok? && AddShareholders(o.db, p.id, p.shareholders) == Outcome(AppendChildren(d, p), Ok(()))
    ensures var o := AddSubscriptions(d, p.id, p.subscriptions);
      Valid(AddShareholders(o.db, p.id, p.shareholders).db)
  {
    AddSubscriptionsAppend(d, p.id, p.subscriptions);
    AddSubscriptionsValid(d, p.id, p.subscriptions);
    var d2 := WithSubscriptions(d, p.id, p.subscriptions);
    AddShareholdersAppend(d2, p.id, p.shareholders);
    AddShareholdersValid(d2, p.id, p.shareholders);
  }

  lemma ClearChildrenValid(db: Db, pid: string)
    requires Valid(db)
    ensures Valid(ClearChildren(db, pid)) && ClearChildren(db, pid).properties == db.properties
  {
    StoreValid.DeleteSubscriptionsByPropertyIdValid(db, pid);
    StoreValid.DeleteShareholdersByPropertyIdValid(DeleteSubscriptionsByPropertyId(db, pid), pid);
  }

  /** With the foreign keys holding, a property that is not stored has no
      children, so clearing them changes nothing. */
  lemma ClearChildrenOfMissing(db: Db, pid: string)
    requires ForeignKeysHold(db) && !HasKey(db.properties, PropertyKey, pid)
    ensures ClearChildren(db, pid) == db
  {
    forall i | 0 <= i < |db.subscriptions| ensures KeyIsNot(SubscriptionOwner, pid)(db.subscriptions[i]) {
      assert HasKey(db.properties, PropertyKey, db.subscriptions[i].propertyId);
    }
    WhereAll(db.subscriptions, KeyIsNot(SubscriptionOwner, pid));
    assert GetSubscriptionsByPropertyId(db, pid) == [];
    forall x | x in db.bills ensures NotOwnedBy(db, pid)(x) {
      assert !HasKey(GetSubscriptionsByPropertyId(db, pid), SubscriptionKey, x.subscriptionId);
      assert OwnedBy(db, pid)(x) == HasKey(GetSubscriptionsByPropertyId(db, pid), SubscriptionKey, x.subscriptionId);
      assert NotOwnedBy(db, pid)(x) == !OwnedBy(db, pid)(x);
    }
    WhereAll(db.bills, NotOwnedBy(db, pid));
    var d1 := DeleteSubscriptionsByPropertyId(db, pid);
    assert d1 == db;
    forall i | 0 <= i < |db.shareholders| ensures KeyIsNot(ShareholderOwner, pid)(db.shareholders[i]) {
      assert HasKey(db.properties, PropertyKey, db.shareholders[i].propertyId);
    }
    WhereAll(db.shareholders, KeyIsNot(ShareholderOwner, pid));
  }

  /** `addElectricityBill`. */
  function AddBill(db: Db, sid: int, b: ElectricityBill): (o: Outcome<()>)
    ensures o.result.Err? <==> !HasKey(db.subscriptions, SubscriptionKey, sid)
  {
    InsertBill(db, ToElectricityBillEntity(b, sid))
  }

  /** `updateElectricityBill`: the bill's row rewritten under its own id. */
  function EditBill(db: Db, billId: int, b: ElectricityBill, sid: int): (o: Outcome<()>)
    ensures !HasKey(db.bills, BillKey, billId) ==> o == Outcome(db, Ok(()))
  {
    UpdateBill(db, ToElectricityBillEntity(b, sid).(id := billId))
  }

  /** `deleteElectricityBill`: looked up first; an unknown id does nothing. */
  function RemoveBill(db: Db, billId: int): (r: Db)
    ensures GetBillById(r, billId).None?
    ensures forall q :: q != billId ==> GetBillById(r, q) == GetBillById(db, q)
    ensures r.(bills := db.bills) == db
  {
    match GetBillById(db, billId)
    case None => db
    case Some(e) => DeleteBill(db, e)
  }

  /** `addShareholderToProperty`. */
  function AddShareholder(db: Db, pid: string, s: Shareholder): (o: Outcome<()>)
    ensures o.result.Err? <==> !HasKey(db.properties, PropertyKey, pid)
  {
    InsertShareholder(db, ToShareholderEntity(s, pid))
  }

  /** `updateShareholder`: the shareholder's row rewritten under its own id. */
  function EditShareholder(db: Db, shareholderId: int, s: Shareholder, pid: string): (o: Outcome<()>)
    ensures !HasKey(db.shareholders, ShareholderKey, shareholderId) ==> o == Outcome(db, Ok(()))
  {
    UpdateShareholder(db, ToShareholderEntity(s, pid).(id := shareholderId))
  }

  /** `deleteShareholder`: looked up first; an unknown id does nothing. */
  function RemoveShareholder(db: Db, shareholderId: int): (r: Db)
    ensures GetShareholderById(r, shareholderId).None?
    ensures forall q :: q != shareholderId ==> GetShareholderById(r, q) == GetShareholderById(db, q)
    ensures r.(shareholders := db.shareholders) == db
  {
    match GetShareholderById(db, shareholderId)
    case None => db
    case Some(e) => DeleteShareholder(db, e)
  }

  /** Editing a stored bill under an existing subscription succeeds, and the
      row then reads back as the given bill; every other row reads as before. */
  lemma EditBillReadBack(db: Db, billId: int, b: ElectricityBill, sid: int)
    requires HasKey(db.bills, BillKey, billId) && HasKey(db.subscriptions, SubscriptionKey, sid)
    ensures EditBill(db, billId, b, sid).result.Ok?
    ensures var r := GetBillById(EditBill(db, billId, b, sid).db, billId);
      r.Some? && r.value.subscriptionId == sid && ToElectricityBill(r.value) == Ok(b)
    ensures forall q :: q != billId ==> GetBillById(EditBill(db, billId, b, sid).db, q) == GetBillById(db, q)
  {
    var e := ToElectricityBillEntity(b, sid).(id := billId);
    UpdateBillReadBack(db, e);
    BillRoundTrip(b, sid);
  }

  lemma EditShareholderReadBack(db: Db, shareholderId: int, s: Shareholder, pid: string)
    requires HasKey(db.shareholders, ShareholderKey, shareholderId) && HasKey(db.properties, PropertyKey, pid)
    ensures EditShareholder(db, shareholderId, s, pid).result.Ok?
    ensures var r := GetShareholderById(EditShareholder(db, shareholderId, s, pid).db, shareholderId);
      r.Some? && r.value.propertyId == pid && ToShareholder(r.value) == Ok(s)
    ensures forall q :: q != shareholderId ==>
      GetShareholderById(EditShareholder(db, shareholderId, s, pid).db, q) == GetShareholderById(db, q)
  {
    var e := ToShareholderEntity(s, pid).(id := shareholderId);
    UpdateShareholderReadBack(db, e);
    ShareholderRoundTrip(s, pid);
  }

  /** The single-row writes keep the database valid. */
  lemma SingleWritesValid(db: Db)
    requires Valid(db)
    ensures forall sid, b :: Valid(AddBill(db, sid, b).db)
    ensures forall billId, b, sid :: Valid(EditBill(db, billId, b, sid).db)
    ensures forall billId :: Valid(RemoveBill(db, billId))
    ensures forall pid, s :: Valid(AddShareholder(db, pid, s).db)
    ensures forall id, s, pid :: Valid(EditShareholder(db, id, s, pid).db)
    ensures forall id :: Valid(RemoveShareholder(db, id))
  {
    forall sid, b ensures Valid(AddBill(db, sid, b).db) {
      StoreValid.InsertBillValid(db, ToElectricityBillEntity(b, sid));
    }
    forall billId, b, sid ensures Valid(EditBill(db, billId, b, sid).db) {
      StoreValid.UpdateBillValid(db, ToElectricityBillEntity(b, sid).(id := billId));
    }
    forall billId ensures Valid(RemoveBill(db, billId)) {
      var f := GetBillById(db, billId);
      if f.Some? { StoreValid.DeleteBillValid(db, f.value); }
    }
    forall pid, s ensures Valid(AddShareholder(db, pid, s).db) {
      StoreValid.InsertShareholderValid(db, ToShareholderEntity(s, pid));
    }
    forall id, s, pid ensures Valid(EditShareholder(db, id, s, pid).db) {
      StoreValid.UpdateShareholderValid(db, ToShareholderEntity(s, pid).(id := id));
    }
    forall id ensures Valid(RemoveShareholder(db, id)) {
      var f := GetShareholderById(db, id);
      if f.Some? { StoreValid.DeleteShareholderValid(db, f.value); }
    }
  }
}
