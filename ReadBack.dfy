/** What the repository's reads give back after its writes: a property
    written whole reads back as itself (bills newest first), rewriting one
    property leaves every other property's read alone, and a deleted
    property reads as absent. */
module ReadBack {
  import opened Wrappers
  import opened Domain
  import opened Entities
  import opened Mappers
  import opened Tables
  import opened Store
  import opened Effects
  import opened Reads
  import StoreValid

  // ---- the appended rows ----

  /** Every appended bill row names its subscription. */
  lemma {:induction false} BillRowsKeyed(bills: seq<ElectricityBill>, sid: int, base: int)
    ensures AllKeyed(BillRows(bills, sid, base), BillOwner, sid)
    decreases |bills|
  {
    if bills != [] { BillRowsKeyed(bills[1..], sid, base + 1); }
  }

  /** The key a bill row is stored under plays no part in decoding it. */
  lemma BillDecodeIgnoresId(e: ElectricityBillEntity, k: int)
    ensures ToElectricityBill(e.(id := k)) == ToElectricityBill(e)
  {
  }

  /** A decoded bill's date prints as the row's stored date text. */
  lemma BillDecodesKey()
    ensures forall a, b :: BillDecodes(a, b) ==> PaymentDateKey(a) == BillDateText(b)
  {
    forall a, b | BillDecodes(a, b) ensures PaymentDateKey(a) == BillDateText(b) {
      assert ToElectricityBill(a) == Ok(b);
    }
  }

  /** Bill row j is bill j under key `base + j`. */
  lemma {:induction false} BillRowsShape(bills: seq<ElectricityBill>, sid: int, base: int)
    ensures forall j :: 0 <= j < |bills| ==>
      BillRows(bills, sid, base)[j] == ToElectricityBillEntity(bills[j], sid).(id := base + j)
    decreases |bills|
  {
    if bills != [] {
      BillRowsShape(bills[1..], sid, base + 1);
      var rows := BillRows(bills, sid, base);
      assert forall j :: 0 < j < |bills| ==> rows[j] == BillRows(bills[1..], sid, base + 1)[j - 1];
    }
  }

  /** Each appended bill row decodes to the bill it was written from. */
  lemma BillRowsDecode(bills: seq<ElectricityBill>, sid: int, base: int)
    ensures Pointwise(BillRows(bills, sid, base), bills, BillDecodes)
  {
    var rows := BillRows(bills, sid, base);
    BillRowsShape(bills, sid, base);
    forall j | 0 <= j < |bills| ensures BillDecodes(rows[j], bills[j]) {
      BillRoundTrip(bills[j], sid);
      BillDecodeIgnoresId(ToElectricityBillEntity(bills[j], sid), base + j);
    }
  }

  /** One subscription's bill rows under key `sid`, keys from `base`. */
  function SubscriptionBillRows(s: Subscription, sid: int, base: int): seq<ElectricityBillEntity>
  {
    BillRows(s.electricityBills, sid, base)
  }

  function BillCount(s: Subscription): nat
  {
    |s.electricityBills|
  }

  /** The appended bill rows are the subscriptions' bill groups laid out in turn. */
  lemma {:induction false} AllBillRowsFlat(subs: seq<Subscription>, sb: int, bb: int)
    ensures AllBillRows(subs, sb, bb) == Flatten(subs, SubscriptionBillRows, BillCount, sb, bb)
    decreases |subs|
  {
    if subs != [] { AllBillRowsFlat(subs[1..], sb + 1, bb + |subs[0].electricityBills|); }
  }

  lemma {:induction false} AllBillRowsKeyed(subs: seq<Subscription>, sb: int, bb: int)
    ensures FlatKeyed(subs, SubscriptionBillRows, BillCount, BillOwner, sb, bb)
    decreases |subs|
  {
    if subs != [] {
      BillRowsKeyed(subs[0].electricityBills, sb, bb);
      AllBillRowsKeyed(subs[1..], sb + 1, bb + |subs[0].electricityBills|);
    }
  }

  /** The bill rows of the subscriptions keyed from `sb` name keys from `sb` up. */
  lemma AllBillRowsFrom(subs: seq<Subscription>, sb: int, bb: int)
    ensures KeyedFrom(AllBillRows(subs, sb, bb), BillOwner, sb)
  {
    AllBillRowsFlat(subs, sb, bb);
    AllBillRowsKeyed(subs, sb, bb);
    FlattenFrom(subs, SubscriptionBillRows, BillCount, BillOwner, sb, bb);
  }

  function BillsOf(s: Subscription): seq<ElectricityBill>
  {
    s.electricityBills
  }

  lemma SubscriptionBillRowsDecode(s: Subscription, sid: int, base: int)
    ensures BillsOf(s) == s.electricityBills
    ensures Pointwise(SubscriptionBillRows(s, sid, base), BillsOf(s), BillDecodes)
  {
    BillRowsDecode(s.electricityBills, sid, base);
  }

  /** Under the key of subscription j are rows decoding one by one to its bills. */
  lemma AllBillRowsDecodeAt(subs: seq<Subscription>, sb: int, bb: int, j: nat)
    requires j < |subs|
    ensures Pointwise(Where(AllBillRows(subs, sb, bb), KeyIs(BillOwner, sb + j)), subs[j].electricityBills, BillDecodes)
  {
    hide *;
    AllBillRowsFlat(subs, sb, bb);
    AllBillRowsKeyed(subs, sb, bb);
    SubscriptionBillRowsDecode(subs[j], sb + j, Offset(subs, BillCount, bb, j));
    FlattenPointwiseAt(subs, SubscriptionBillRows, BillCount, BillOwner, sb, bb, j, BillsOf, BillDecodes);
  }

  lemma {:induction false} SubscriptionRowsKeyed(subs: seq<Subscription>, pid: string, base: int)
    ensures AllKeyed(SubscriptionRows(subs, pid, base), SubscriptionOwner, pid)
    decreases |subs|
  {
    if subs != [] { SubscriptionRowsKeyed(subs[1..], pid, base + 1); }
  }

  lemma {:induction false} ShareholderRowsKeyed(holders: seq<Shareholder>, pid: string, base: int)
    ensures AllKeyed(ShareholderRows(holders, pid, base), ShareholderOwner, pid)
    decreases |holders|
  {
    if holders != [] { ShareholderRowsKeyed(holders[1..], pid, base + 1); }
  }

  /** Shareholder row j is shareholder j under key `base + j`. */
  lemma {:induction false} ShareholderRowsShape(holders: seq<Shareholder>, pid: string, base: int)
    ensures forall j :: 0 <= j < |holders| ==>
      ShareholderRows(holders, pid, base)[j] == ToShareholderEntity(holders[j], pid).(id := base + j)
    decreases |holders|
  {
    if holders != [] {
      ShareholderRowsShape(holders[1..], pid, base + 1);
      var rows := ShareholderRows(holders, pid, base);
      assert forall j :: 0 < j < |holders| ==> rows[j] == ShareholderRows(holders[1..], pid, base + 1)[j - 1];
    }
  }

  /** Each appended shareholder row decodes to the shareholder written. */
  lemma ShareholderRowsDecode(holders: seq<Shareholder>, pid: string, base: int)
    ensures DecodeAll(ShareholderRows(holders, pid, base), ToShareholder) == Ok(holders)
  {
    var rows := ShareholderRows(holders, pid, base);
    ShareholderRowsShape(holders, pid, base);
    forall j | 0 <= j < |holders| ensures ToShareholder(rows[j]) == Ok(holders[j]) {
      ShareholderRoundTrip(holders[j], pid);
    }
    DecodeAllOf(rows, ToShareholder, holders);
  }

  // ---- facts about a valid state ----

  /** A valid state has no bill under a subscription key not yet issued. */
  lemma NoBillsAbove(d: Db, k: int)
    requires Valid(d) && k >= d.nextSubscriptionId
    ensures Where(d.bills, KeyIs(BillOwner, k)) == []
  {
    forall x | x in d.bills ensures !KeyIs(BillOwner, k)(x) {
      var i :| 0 <= i < |d.bills| && d.bills[i] == x;
      assert HasKey(d.subscriptions, SubscriptionKey, BillOwner(d.bills[i]));
    }
    WhereNone(d.bills, KeyIs(BillOwner, k));
  }

  /** With the foreign keys holding, a property that is not stored has no children. */
  lemma NoChildrenOfMissing(d: Db, pid: string)
    requires ForeignKeysHold(d) && !HasKey(d.properties, PropertyKey, pid)
    ensures GetSubscriptionsByPropertyId(d, pid) == [] && GetShareholdersByPropertyId(d, pid) == []
  {
    ClearChildrenOfMissing(d, pid);
  }

  /** Cascading a property's subscriptions away keeps the bills of any
      subscription of another property. */
  lemma CascadeKeepsOtherBills(d: Db, id: string, s: SubscriptionEntity)
    requires UniqueKeys(d.subscriptions, SubscriptionKey) && s in d.subscriptions && s.propertyId != id
    ensures Where(DeleteSubscriptionsByPropertyId(d, id).bills, KeyIs(BillOwner, s.id)) == Where(d.bills, KeyIs(BillOwner, s.id))
  {
    var keep, sel := NotOwnedBy(d, id), KeyIs(BillOwner, s.id);
    var k :| 0 <= k < |d.subscriptions| && d.subscriptions[k] == s;
    forall i | 0 <= i < |d.bills| && sel(d.bills[i]) ensures keep(d.bills[i]) {
      var b := d.bills[i];
      assert sel(b) == (BillOwner(b) == s.id);
      OwnedByMeans(d, id, b);
      forall j | 0 <= j < |d.subscriptions| && d.subscriptions[j].id == b.subscriptionId
        ensures d.subscriptions[j].propertyId != id
      {
        assert SubscriptionKey(d.subscriptions[j]) == SubscriptionKey(d.subscriptions[k]);
        assert j == k;
      }
      assert keep(b) == !OwnedBy(d, id)(b);
    }
    assert DeleteSubscriptionsByPropertyId(d, id).bills == Where(d.bills, keep);
    WhereFilterIrrelevant(d.bills, keep, sel);
  }

  // ---- reads agree when the rows they look at agree ----

  /** Two states with the same subscription rows for property `q`, each
      filing the same bill rows, load `q`'s subscriptions alike. */
  lemma SameRowsSameLoad(d1: Db, d2: Db, q: string)
    requires GetSubscriptionsByPropertyId(d1, q) == GetSubscriptionsByPropertyId(d2, q)
    requires forall s :: s in GetSubscriptionsByPropertyId(d1, q) ==>
      Where(d1.bills, KeyIs(BillOwner, s.id)) == Where(d2.bills, KeyIs(BillOwner, s.id))
    ensures LoadSubscriptions(d1, q) == LoadSubscriptions(d2, q)
  {
    hide ToElectricityBill, ToSubscription;
    var rows := GetSubscriptionsByPropertyId(d1, q);
    forall s | s in rows ensures SubscriptionLoader(d1)(s) == SubscriptionLoader(d2)(s) {
      assert GetBillsBySubscriptionId(d1, s.id) == GetBillsBySubscriptionId(d2, s.id);
    }
    DecodeAllSame(rows, SubscriptionLoader(d1), SubscriptionLoader(d2));
  }

  /** Two states whose rows for property `q` are the same read `q` alike. */
  lemma SameRowsSameRead(d1: Db, d2: Db, q: string)
    requires GetPropertyById(d1, q) == GetPropertyById(d2, q)
    requires GetSubscriptionsByPropertyId(d1, q) == GetSubscriptionsByPropertyId(d2, q)
    requires forall s :: s in GetSubscriptionsByPropertyId(d1, q) ==>
      Where(d1.bills, KeyIs(BillOwner, s.id)) == Where(d2.bills, KeyIs(BillOwner, s.id))
    requires GetShareholdersByPropertyId(d1, q) == GetShareholdersByPropertyId(d2, q)
    ensures CompletePropertyById(d1, q) == CompletePropertyById(d2, q)
  {
    hide LoadSubscriptions, ToProperty, ToShareholder, GetPropertyById, GetSubscriptionsByPropertyId;
    SameRowsSameLoad(d1, d2, q);
  }

  // ---- reading back appended children ----

  /** The bill rows of subscription `sid`, as the query returns them. */
  lemma BillsBySubscriptionSorted(f: Db, sid: int)
    ensures GetBillsBySubscriptionId(f, sid) == SortDesc(Where(f.bills, KeyIs(BillOwner, sid)), PaymentDateKey)
  {
  }

  /** Rows under key `sid` that decode one by one to `bills` come back from
      the query decoding to `bills` newest first. */
  lemma LoadBills(f: Db, bills: seq<ElectricityBill>, sid: int)
    requires Pointwise(Where(f.bills, KeyIs(BillOwner, sid)), bills, BillDecodes)
    ensures DecodeAll(GetBillsBySubscriptionId(f, sid), ToElectricityBill) == Ok(NewestFirst(bills))
  {
    BillsBySubscriptionSorted(f, sid);
    hide *;
    var rows := Where(f.bills, KeyIs(BillOwner, sid));
    var sorted := SortDesc(rows, PaymentDateKey);
    var newest := NewestFirst(bills);
    BillDecodesKey();
    SortDescPointwise(rows, bills, PaymentDateKey, BillDateText, BillDecodes);
    NewestFirstIs(bills);
    BillDecodesAll(sorted, newest);
    DecodeAllOf(sorted, ToElectricityBill, newest);
  }

  lemma NewestFirstIs(bills: seq<ElectricityBill>)
    ensures NewestFirst(bills) == SortDesc(bills, BillDateText)
  {
  }

  lemma BillDecodesAll(rows: seq<ElectricityBillEntity>, bills: seq<ElectricityBill>)
    requires Pointwise(rows, bills, BillDecodes)
    ensures |rows| == |bills| && forall i :: 0 <= i < |rows| ==> ToElectricityBill(rows[i]) == Ok(bills[i])
  {
    hide ToElectricityBill;
  }

  /** A subscription row whose key files rows decoding one by one to the
      subscription's bills loads as the subscription, bills newest first. */
  lemma LoadOne(f: Db, sub: Subscription, pid: string, sid: int)
    requires Pointwise(Where(f.bills, KeyIs(BillOwner, sid)), sub.electricityBills, BillDecodes)
    ensures SubscriptionLoader(f)(ToSubscriptionEntity(sub, pid).(id := sid))
      == Ok(Subscription(sub.name, NewestFirst(sub.electricityBills)))
  {
    hide GetBillsBySubscriptionId, DecodeAll, NewestFirst, Where;
    LoadBills(f, sub.electricityBills, sid);
  }

  /** Subscription row j is subscription j under key `base + j`. */
  lemma {:induction false} SubscriptionRowsShape(subs: seq<Subscription>, pid: string, base: int)
    ensures forall j :: 0 <= j < |subs| ==>
      SubscriptionRows(subs, pid, base)[j] == ToSubscriptionEntity(subs[j], pid).(id := base + j)
    decreases |subs|
  {
    if subs != [] {
      SubscriptionRowsShape(subs[1..], pid, base + 1);
      var rows := SubscriptionRows(subs, pid, base);
      assert forall j :: 0 < j < |subs| ==> rows[j] == SubscriptionRows(subs[1..], pid, base + 1)[j - 1];
    }
  }

  /** Decoding the appended subscription rows, each key filing rows that
      decode to that subscription's bills, gives the subscriptions with their
      bills newest first. */
  lemma LoadAppended(f: Db, subs: seq<Subscription>, pid: string, sb: int)
    requires forall j :: 0 <= j < |subs| ==>
      Pointwise(Where(f.bills, KeyIs(BillOwner, sb + j)), subs[j].electricityBills, BillDecodes)
    ensures DecodeAll(SubscriptionRows(subs, pid, sb), SubscriptionLoader(f)) == Ok(NewestFirstAll(subs))
  {
    hide *;
    var rows := SubscriptionRows(subs, pid, sb);
    var loaded := NewestFirstAll(subs);
    SubscriptionRowsShape(subs, pid, sb);
    forall j | 0 <= j < |rows| ensures SubscriptionLoader(f)(rows[j]) == Ok(loaded[j]) {
      LoadOne(f, subs[j], pid, sb + j);
    }
    DecodeAllOf(rows, SubscriptionLoader(f), loaded);
  }

  /** The rows `AppendChildren` adds, table by table. */
  lemma AppendChildrenRows(d: Db, p: Property)
    ensures var f := AppendChildren(d, p);
      && f.properties == d.properties
      && f.subscriptions == d.subscriptions + SubscriptionRows(p.subscriptions, p.id, d.nextSubscriptionId)
      && f.bills == d.bills + AllBillRows(p.subscriptions, d.nextSubscriptionId, d.nextBillId)
      && f.shareholders == d.shareholders + ShareholderRows(p.shareholders, p.id, d.nextShareholderId)
  {
  }

  /** After appending, the subscriptions of `p.id` are the old ones
      followed by the appended ones, and every other property's are the old ones. */
  lemma AppendedSubscriptionRows(d: Db, p: Property, q: string)
    ensures GetSubscriptionsByPropertyId(AppendChildren(d, p), q) == GetSubscriptionsByPropertyId(d, q)
      + (if q == p.id then SubscriptionRows(p.subscriptions, p.id, d.nextSubscriptionId) else [])
  {
    var srows := SubscriptionRows(p.subscriptions, p.id, d.nextSubscriptionId);
    AppendChildrenRows(d, p);
    WhereConcat(d.subscriptions, srows, KeyIs(SubscriptionOwner, q));
    SubscriptionRowsKeyed(p.subscriptions, p.id, d.nextSubscriptionId);
    WhereAllKeyed(srows, SubscriptionOwner, p.id, q);
  }

  /** The same for the shareholders. */
  lemma AppendedShareholderRows(d: Db, p: Property, q: string)
    ensures GetShareholdersByPropertyId(AppendChildren(d, p), q) == GetShareholdersByPropertyId(d, q)
      + (if q == p.id then ShareholderRows(p.shareholders, p.id, d.nextShareholderId) else [])
  {
    var hrows := ShareholderRows(p.shareholders, p.id, d.nextShareholderId);
    AppendChildrenRows(d, p);
    WhereConcat(d.shareholders, hrows, KeyIs(ShareholderOwner, q));
    ShareholderRowsKeyed(p.shareholders, p.id, d.nextShareholderId);
    WhereAllKeyed(hrows, ShareholderOwner, p.id, q);
  }

  /** After appending to a valid state, the bills under an issued key are
      the old ones, and under a new key the appended ones. */
  lemma AppendedBills(d: Db, p: Property, k: int)
    requires Valid(d)
    ensures var f := AppendChildren(d, p); var brows := AllBillRows(p.subscriptions, d.nextSubscriptionId, d.nextBillId);
      Where(f.bills, KeyIs(BillOwner, k)) == if k >= d.nextSubscriptionId then Where(brows, KeyIs(BillOwner, k))
        else Where(d.bills, KeyIs(BillOwner, k))
  {
    var brows := AllBillRows(p.subscriptions, d.nextSubscriptionId, d.nextBillId);
    AppendChildrenRows(d, p);
    WhereConcat(d.bills, brows, KeyIs(BillOwner, k));
    if k >= d.nextSubscriptionId {
      NoBillsAbove(d, k);
    } else {
      AllBillRowsFrom(p.subscriptions, d.nextSubscriptionId, d.nextBillId);
      WhereBelow(brows, BillOwner, d.nextSubscriptionId, k);
    }
  }

  /** After appending to a valid state, the bills under a new key are the appended ones. */
  lemma AppendedBillsNew(d: Db, p: Property, k: int)
    requires Valid(d) && k >= d.nextSubscriptionId
    ensures Where(AppendChildren(d, p).bills, KeyIs(BillOwner, k))
      == Where(AllBillRows(p.subscriptions, d.nextSubscriptionId, d.nextBillId), KeyIs(BillOwner, k))
  {
    AppendedBills(d, p, k);
  }

  /** After appending to a valid state, the rows under the key of the j-th
      new subscription decode one by one to its bills. */
  lemma AppendedBillsDecode(d: Db, p: Property, j: nat)
    requires Valid(d) && j < |p.subscriptions|
    ensures Pointwise(Where(AppendChildren(d, p).bills, KeyIs(BillOwner, d.nextSubscriptionId + j)),
      p.subscriptions[j].electricityBills, BillDecodes)
  {
    hide *;
    AppendedBillsNew(d, p, d.nextSubscriptionId + j);
    AllBillRowsDecodeAt(p.subscriptions, d.nextSubscriptionId, d.nextBillId, j);
  }

  /** Appending a property's aggregate to a valid state which holds no
      children of it: its child rows are exactly the appended ones, and they
      load as its subscriptions (bills newest first) and its shareholders. */
  lemma AppendedLoads(d: Db, p: Property)
    requires Valid(d)
    requires GetSubscriptionsByPropertyId(d, p.id) == [] && GetShareholdersByPropertyId(d, p.id) == []
    ensures var f := AppendChildren(d, p);
      GetSubscriptionsByPropertyId(f, p.id) == SubscriptionRows(p.subscriptions, p.id, d.nextSubscriptionId)
    ensures var f := AppendChildren(d, p);
      GetShareholdersByPropertyId(f, p.id) == ShareholderRows(p.shareholders, p.id, d.nextShareholderId)
    ensures LoadSubscriptions(AppendChildren(d, p), p.id) == Ok(NewestFirstAll(p.subscriptions))
    ensures LoadShareholders(AppendChildren(d, p), p.id) == Ok(p.shareholders)
  {
    hide AppendChildren, BillRows, AllBillRows, SubscriptionRows, ShareholderRows, ToElectricityBill, ToShareholder, LoadSubscription;
    var f := AppendChildren(d, p);
    AppendedSubscriptionRows(d, p, p.id);
    AppendedShareholderRows(d, p, p.id);
    forall j | 0 <= j < |p.subscriptions|
      ensures Pointwise(Where(f.bills, KeyIs(BillOwner, d.nextSubscriptionId + j)), p.subscriptions[j].electricityBills, BillDecodes)
    {
      AppendedBillsDecode(d, p, j);
    }
    LoadAppended(f, p.subscriptions, p.id, d.nextSubscriptionId);
    ShareholderRowsDecode(p.shareholders, p.id, d.nextShareholderId);
  }

  /** Appending a property's aggregate to a valid state whose row for it is
      `p`'s and which holds no children of it: it reads back as `p` with
      bills newest first. */
  lemma AppendedReadBack(d: Db, p: Property)
    requires Valid(d) && GetPropertyById(d, p.id) == Some(ToPropertyEntity(p))
    requires GetSubscriptionsByPropertyId(d, p.id) == [] && GetShareholdersByPropertyId(d, p.id) == []
    ensures CompletePropertyById(AppendChildren(d, p), p.id) == Ok(Some(AsReadBack(p)))
  {
    AppendedLoads(d, p);
    AppendChildrenRows(d, p);
    hide LoadSubscriptions, LoadShareholders, AppendChildren;
    PropertyRoundTrip(AsReadBack(p));
  }

  /** Appending `p`'s aggregate leaves the read of every other property alone. */
  lemma AppendedOthers(d: Db, p: Property, q: string)
    requires Valid(d) && q != p.id
    ensures CompletePropertyById(AppendChildren(d, p), q) == CompletePropertyById(d, q)
  {
    var f := AppendChildren(d, p);
    AppendChildrenRows(d, p);
    AppendedSubscriptionRows(d, p, q);
    AppendedShareholderRows(d, p, q);
    forall s | s in GetSubscriptionsByPropertyId(f, q)
      ensures Where(f.bills, KeyIs(BillOwner, s.id)) == Where(d.bills, KeyIs(BillOwner, s.id))
    {
      var i :| 0 <= i < |d.subscriptions| && d.subscriptions[i] == s;
      assert s.id < d.nextSubscriptionId;
      AppendedBills(d, p, s.id);
    }
    SameRowsSameRead(f, d, q);
  }
}
