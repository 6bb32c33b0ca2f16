/** The repository's reads: a property assembled from its row, its
    subscription rows (each with its bill rows, newest first) and its
    shareholder rows, every row decoded by the mappers. A row that does not
    decode makes the whole read throw; `Err` carries what it threw. */
module Reads {
  import opened Wrappers
  import opened Calendar
  import opened Domain
  import opened Entities
  import opened Converters
  import opened Mappers
  import opened Tables
  import opened Store

  // ---- decoding a list of rows ----

  /** `rows.map(dec)` with a `dec` that may throw: the rows are decoded in
      order and the first failure is what the whole call throws. */
  function DecodeAll<T, U>(rows: seq<T>, dec: T -> Result<U, DecodeError>): (r: Result<seq<U>, DecodeError>)
    ensures r.Ok? <==> forall i :: 0 <= i < |rows| ==> dec(rows[i]).Ok?
    ensures r.Ok? ==> |r.value| == |rows| && forall i :: 0 <= i < |rows| ==> dec(rows[i]) == Ok(r.value[i])
    ensures r.Err? ==> exists i :: (0 <= i < |rows| && dec(rows[i]) == Err(r.error)
      && forall j :: 0 <= j < i ==> dec(rows[j]).Ok?)
    decreases |rows|
  {
    if rows == [] then Ok([])
    else
      match dec(rows[0])
      case Err(e) => Err(e)
      case Ok(x) =>
        match DecodeAll(rows[1..], dec)
        case Err(e) => FirstErrorShift(rows, dec, e); Err(e)
        case Ok(xs) =>
          assert forall i :: 0 < i < |rows| ==> rows[i] == rows[1..][i - 1];
          Ok([x] + xs)
  }

  lemma FirstErrorShift<T, U>(rows: seq<T>, dec: T -> Result<U, DecodeError>, e: DecodeError)
    requires rows != [] && dec(rows[0]).Ok?
    requires exists i :: (0 <= i < |rows[1..]| && dec(rows[1..][i]) == Err(e)
      && forall j :: 0 <= j < i ==> dec(rows[1..][j]).Ok?)
    ensures exists i :: 0 <= i < |rows| && dec(rows[i]) == Err(e) && forall j :: 0 <= j < i ==> dec(rows[j]).Ok?
  {
    var i :| 0 <= i < |rows[1..]| && dec(rows[1..][i]) == Err(e) && forall j :: 0 <= j < i ==> dec(rows[1..][j]).Ok?;
    assert dec(rows[i + 1]) == Err(e);
    forall j | 0 <= j < i + 1 ensures dec(rows[j]).Ok? {
      if j > 0 { assert rows[j] == rows[1..][j - 1]; }
    }
  }

  /** Rows that decode one by one to `ys` decode as a list to `ys`. */
  lemma {:induction false} DecodeAllOf<T, U>(rows: seq<T>, dec: T -> Result<U, DecodeError>, ys: seq<U>)
    requires |rows| == |ys| && forall i :: 0 <= i < |rows| ==> dec(rows[i]) == Ok(ys[i])
    ensures DecodeAll(rows, dec) == Ok(ys)
  {
    var r := DecodeAll(rows, dec);
    assert r.Ok?;
    assert r.value == ys by {
      forall i | 0 <= i < |ys| ensures r.value[i] == ys[i] {
        assert dec(rows[i]) == Ok(r.value[i]);
      }
    }
  }

  /** Two decoders that agree on every row decode the list alike. */
  lemma {:induction false} DecodeAllSame<T, U>(rows: seq<T>, d1: T -> Result<U, DecodeError>, d2: T -> Result<U, DecodeError>)
    requires forall x :: x in rows ==> d1(x) == d2(x)
    ensures DecodeAll(rows, d1) == DecodeAll(rows, d2)
    decreases |rows|
  {
    if rows != [] {
      assert rows[0] in rows;
      assert forall x :: x in rows[1..] ==> x in rows;
      DecodeAllSame(rows[1..], d1, d2);
    }
  }

  // ---- assembling a property ----

  /** A bill row decodes to `b`. */
  predicate BillDecodes(e: ElectricityBillEntity, b: ElectricityBill)
  {
    ToElectricityBill(e) == Ok(b)
  }

  /** One element of `getSubscriptionsForProperty`: the row with its bill
      rows, newest first, each decoded. */
  function LoadSubscription(db: Db, e: SubscriptionEntity): (r: Result<Subscription, DecodeError>)
    ensures r.Ok? <==> forall i :: 0 <= i < |GetBillsBySubscriptionId(db, e.id)| ==>
      ToElectricityBill(GetBillsBySubscriptionId(db, e.id)[i]).Ok?
    ensures r.Ok? ==> (r.value.name == e.name
      && Pointwise(GetBillsBySubscriptionId(db, e.id), r.value.electricityBills, BillDecodes))
  {
    match DecodeAll(GetBillsBySubscriptionId(db, e.id), ToElectricityBill)
    case Err(err) => Err(err)
    case Ok(bills) => Ok(ToSubscription(e, bills))
  }

  /** `LoadSubscription` against one state, as the function `map` applies. */
  function SubscriptionLoader(db: Db): SubscriptionEntity -> Result<Subscription, DecodeError>
  {
    (e: SubscriptionEntity) => LoadSubscription(db, e)
  }

  /** `getSubscriptionsForProperty`. */
  function LoadSubscriptions(db: Db, propertyId: string): (r: Result<seq<Subscription>, DecodeError>)
    ensures r.Ok? ==> |r.value| == |GetSubscriptionsByPropertyId(db, propertyId)|
  {
    DecodeAll(GetSubscriptionsByPropertyId(db, propertyId), SubscriptionLoader(db))
  }

  /** `getShareholdersForProperty`, and equally `getShareholdersForPropertyFlow`. */
  function LoadShareholders(db: Db, propertyId: string): (r: Result<seq<Shareholder>, DecodeError>)
    ensures r.Ok? ==> |r.value| == |GetShareholdersByPropertyId(db, propertyId)|
  {
    DecodeAll(GetShareholdersByPropertyId(db, propertyId), ToShareholder)
  }

  /** A property row with its children: the subscriptions are read first,
      then the shareholders, then the row itself is mapped. */
  function AssembleProperty(db: Db, e: PropertyEntity): (r: Result<Property, DecodeError>)
    ensures r.Ok? ==> r.value.id == e.id && ToPropertyEntity(r.value) == e
    ensures r.Ok? ==> (Ok(r.value.subscriptions) == LoadSubscriptions(db, e.id)
      && Ok(r.value.shareholders) == LoadShareholders(db, e.id))
  {
    match LoadSubscriptions(db, e.id)
    case Err(err) => Err(err)
    case Ok(subs) =>
      match LoadShareholders(db, e.id)
      case Err(err) => Err(err)
      case Ok(holders) =>
        var r := ToProperty(e, subs, holders);
        if r.Ok? then PropertyEntityRoundTrip(e, subs, holders); r else r
  }

  /** `getCompletePropertyById` (and `getPropertyById`, which delegates to it). */
  function CompletePropertyById(db: Db, id: string): (r: Result<Option<Property>, DecodeError>)
    ensures r == Ok(None) <==> GetPropertyById(db, id).None?
    ensures r.Ok? && r.value.Some? ==> (r.value.value.id == id
      && Some(ToPropertyEntity(r.value.value)) == GetPropertyById(db, id))
  {
    match GetPropertyById(db, id)
    case None => Ok(None)
    case Some(e) =>
      match AssembleProperty(db, e)
      case Err(err) => Err(err)
      case Ok(p) => Ok(Some(p))
  }

  function PropertyAssembler(db: Db): PropertyEntity -> Result<Property, DecodeError>
  {
    (e: PropertyEntity) => AssembleProperty(db, e)
  }

  /** `getAllProperties`: every row assembled, in table order. */
  function AllProperties(db: Db): (r: Result<seq<Property>, DecodeError>)
    ensures r.Ok? ==> |r.value| == |db.properties|
  {
    DecodeAll(GetAllProperties(db), PropertyAssembler(db))
  }

  /** The list of all properties agrees with reading each one by id. */
  lemma AllPropertiesById(db: Db)
    requires UniqueKeys(db.properties, PropertyKey)
    ensures AllProperties(db).Ok? ==> forall i :: 0 <= i < |db.properties| ==>
      CompletePropertyById(db, db.properties[i].id) == Ok(Some(AllProperties(db).value[i]))
    ensures AllProperties(db).Err? ==> exists i :: (0 <= i < |db.properties| &&
      CompletePropertyById(db, db.properties[i].id).Err?)
  {
    var dec := PropertyAssembler(db);
    forall i | 0 <= i < |db.properties|
      ensures CompletePropertyById(db, db.properties[i].id) == match dec(db.properties[i])
        case Err(err) => Err(err) case Ok(p) => Ok(Some(p))
    {
      FindUnique(db.properties, PropertyKey, i);
    }
  }

  /** `getSubscriptionsForPropertyFlow`: the rows mapped without their bills. */
  function SubscriptionsForPropertyFlow(db: Db, propertyId: string): (r: seq<Subscription>)
    ensures |r| == |GetSubscriptionsByPropertyId(db, propertyId)|
    ensures forall i :: 0 <= i < |r| ==>
      r[i].name == GetSubscriptionsByPropertyId(db, propertyId)[i].name && r[i].electricityBills == []
  {
    var rows := GetSubscriptionsByPropertyId(db, propertyId);
    seq(|rows|, i requires 0 <= i < |rows| => ToSubscription(rows[i], []))
  }

  /** Each subscription of the flow is the one the model's default
      constructor makes from the row's name. */
  lemma SubscriptionsFlowAreNew(db: Db, propertyId: string)
    ensures var r := SubscriptionsForPropertyFlow(db, propertyId);
      forall i :: 0 <= i < |r| ==> r[i] == NewSubscription(GetSubscriptionsByPropertyId(db, propertyId)[i].name)
  {
  }

  /** `getBillsByPropertyId`: the joined rows, newest first, decoded. */
  function BillsByProperty(db: Db, propertyId: string): (r: Result<seq<ElectricityBill>, DecodeError>)
    ensures r.Ok? ==> Pointwise(GetBillsByPropertyId(db, propertyId), r.value, BillDecodes)
  {
    DecodeAll(GetBillsByPropertyId(db, propertyId), ToElectricityBill)
  }

  // ---- the order bills come back in ----

  /** The stored text of a bill's date. */
  function BillDateText(b: ElectricityBill): string
  {
    FormatIsoDate(b.paymentDate)
  }

  /** A subscription's bills as a read returns them: newest date text first,
      equal dates in the order they were written. */
  function NewestFirst(bills: seq<ElectricityBill>): (r: seq<ElectricityBill>)
    ensures multiset(r) == multiset(bills)
  {
    SortDesc(bills, BillDateText)
  }

  function NewestFirstAll(subs: seq<Subscription>): (r: seq<Subscription>)
    ensures |r| == |subs|
    ensures forall i :: 0 <= i < |subs| ==>
      r[i] == Subscription(subs[i].name, NewestFirst(subs[i].electricityBills))
    decreases |subs|
  {
    if subs == [] then []
    else [subs[0].(electricityBills := NewestFirst(subs[0].electricityBills))] + NewestFirstAll(subs[1..])
  }

  /** The property a read gives back after it was written. */
  function AsReadBack(p: Property): (r: Property)
    ensures r.(subscriptions := p.subscriptions) == p
    ensures r.subscriptions == NewestFirstAll(p.subscriptions)
  {
    p.(subscriptions := NewestFirstAll(p.subscriptions))
  }

  /** Text order on stored dates is date order while years have four digits,
      so the bills come back latest date first. */
  lemma NewestFirstChronological(bills: seq<ElectricityBill>)
    requires forall i :: 0 <= i < |bills| ==> FourDigitYear(bills[i].paymentDate)
    ensures var r := NewestFirst(bills);
      forall i, j :: 0 <= i < j < |r| ==> !IsBefore(r[i].paymentDate, r[j].paymentDate)
  {
    var r := NewestFirst(bills);
    SortDescSorted(bills, BillDateText);
    forall i, j | 0 <= i < j < |r| ensures !IsBefore(r[i].paymentDate, r[j].paymentDate) {
      assert r[i] in multiset(bills) && r[j] in multiset(bills);
      IsoTextOrder(r[i].paymentDate, r[j].paymentDate);
    }
  }
}
