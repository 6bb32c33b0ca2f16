/** Conversions between the domain values and the table rows. Reading a row
    back can fail where the stored text is not one the writer produces. */
module Mappers {
  import opened Wrappers
  import opened Calendar
  import opened Domain
  import opened Entities
  import opened Converters

  // ---- properties ----

  /** `PropertyEntity.toProperty`: the row's columns plus the given children;
      an unknown stored duration name makes `valueOf` throw. */
  function ToProperty(e: PropertyEntity, subscriptions: seq<Subscription>, shareholders: seq<Shareholder>): (r: Result<Property, DecodeError>)
    ensures r.Err? <==> e.rentDuration != "MONTHLY" && e.rentDuration != "YEARLY"
    ensures r.Err? ==> r.error == UnknownEnumName(e.rentDuration)
    ensures r.Ok? ==> var p := r.value;
      && p.id == e.id && p.name == e.name && p.address == e.address
      && p.electricityCodeNumber == e.electricityCodeNumber && p.rentPrice == e.rentPrice
      && RentDurationName(p.rentDuration) == e.rentDuration && p.renterName == e.renterName
      && p.subscriptions == subscriptions && p.shareholders == shareholders
  {
    match RentDurationValueOf(e.rentDuration)
    case Err(err) => Err(err)
    case Ok(d) => Ok(Property(e.id, e.name, e.address, e.electricityCodeNumber, e.rentPrice, d, e.renterName, subscriptions, shareholders))
  }

  /** `Property.toPropertyEntity`: the scalar columns; the children are dropped. */
  function ToPropertyEntity(p: Property): (e: PropertyEntity)
    ensures e.id == p.id && e.name == p.name && e.address == p.address
    ensures e.electricityCodeNumber == p.electricityCodeNumber && e.renterName == p.renterName
    ensures e.rentPrice == p.rentPrice && e.rentDuration == RentDurationName(p.rentDuration)
  {
    PropertyEntity(p.id, p.name, p.address, p.electricityCodeNumber, p.rentPrice, RentDurationName(p.rentDuration), p.renterName)
  }

  /** Writing a property and reading it back with its own children gives it back. */
  lemma PropertyRoundTrip(p: Property)
    ensures ToProperty(ToPropertyEntity(p), p.subscriptions, p.shareholders) == Ok(p)
  {
    RentDurationRoundTrip(p.rentDuration);
  }

  /** A row that reads back writes back to itself. */
  lemma PropertyEntityRoundTrip(e: PropertyEntity, subscriptions: seq<Subscription>, shareholders: seq<Shareholder>)
    requires ToProperty(e, subscriptions, shareholders).Ok?
    ensures ToPropertyEntity(ToProperty(e, subscriptions, shareholders).value) == e
  {
  }

  // ---- subscriptions ----

  /** `SubscriptionEntity.toSubscription`: the row id and owner are not part
      of the domain value. */
  function ToSubscription(e: SubscriptionEntity, bills: seq<ElectricityBill>): (s: Subscription)
    ensures s.name == e.name && s.electricityBills == bills
  {
    Subscription(e.name, bills)
  }

  /** `Subscription.toSubscriptionEntity`: a new row (id 0) under `propertyId`. */
  function ToSubscriptionEntity(s: Subscription, propertyId: string): (e: SubscriptionEntity)
    ensures e.id == 0 && e.name == s.name && e.propertyId == propertyId
  {
    SubscriptionEntity(0, s.name, propertyId)
  }

  lemma SubscriptionRoundTrip(s: Subscription, propertyId: string)
    ensures ToSubscription(ToSubscriptionEntity(s, propertyId), s.electricityBills) == s
  {
  }

  // ---- bills ----

  /** `ElectricityBillEntity.toElectricityBill`: fails on an unknown currency
      name, then on text `LocalDate.parse` rejects. */
  function ToElectricityBill(e: ElectricityBillEntity): (r: Result<ElectricityBill, DecodeError>)
    ensures r.Ok? <==> CurrencyValueOf(e.currency).Ok? && ParseIsoDate(e.paymentDate).Ok?
    ensures CurrencyValueOf(e.currency).Err? ==> r == Err(UnknownEnumName(e.currency))
    ensures r.Ok? ==>
      && r.value.amount == e.amount
      && CurrencyName(r.value.currency) == e.currency
      && FormatIsoDate(r.value.paymentDate) == e.paymentDate
  {
    match CurrencyValueOf(e.currency)
    case Err(err) => Err(err)
    case Ok(c) =>
      match ParseIsoDate(e.paymentDate)
      case Err(err) => Err(err)
      case Ok(d) => ParsedDateFormats(e.paymentDate); Ok(ElectricityBill(e.amount, c, d))
  }

  /** `ElectricityBill.toElectricityBillEntity`: a new row (id 0) under `subscriptionId`. */
  function ToElectricityBillEntity(b: ElectricityBill, subscriptionId: int): (e: ElectricityBillEntity)
    ensures e.id == 0 && e.subscriptionId == subscriptionId && e.amount == b.amount
    ensures e.currency == CurrencyName(b.currency) && e.paymentDate == FormatIsoDate(b.paymentDate)
  {
    ElectricityBillEntity(0, b.amount, CurrencyName(b.currency), FormatIsoDate(b.paymentDate), subscriptionId)
  }

  lemma BillRoundTrip(b: ElectricityBill, subscriptionId: int)
    ensures ToElectricityBill(ToElectricityBillEntity(b, subscriptionId)) == Ok(b)
  {
    CurrencyRoundTrip(b.currency);
    DateRoundTrip(b.paymentDate);
  }

  /** A bill row that reads back writes back to itself, apart from the id. */
  lemma BillEntityRoundTrip(e: ElectricityBillEntity)
    requires ToElectricityBill(e).Ok?
    ensures ToElectricityBillEntity(ToElectricityBill(e).value, e.subscriptionId) == e.(id := 0)
  {
  }

  // ---- shareholders ----

  /** `ShareholderEntity.toShareholder`: the tag decides the variant; a
      currency share with a null currency fails `!!`, with an unknown name
      `valueOf`; any other tag throws. A percentage ignores the currency column. */
  function ToShareholder(e: ShareholderEntity): (r: Result<Shareholder, DecodeError>)
    ensures e.shareValueType == PercentageTag ==> r == Ok(Shareholder(e.name, Percentage(e.shareValue)))
    ensures e.shareValueType == CurrencyTag && e.currency.None? ==> r == Err(MissingCurrency)
    ensures e.shareValueType == CurrencyTag && e.currency.Some? ==>
      (r.Ok? <==> CurrencyValueOf(e.currency.value).Ok?)
    ensures e.shareValueType == CurrencyTag && r.Ok? ==>
      r.value.name == e.name && r.value.shareValue.CurrencyValue?
      && r.value.shareValue.amount == e.shareValue
      && Some(CurrencyName(r.value.shareValue.currency)) == e.currency
    ensures e.shareValueType != PercentageTag && e.shareValueType != CurrencyTag ==>
      r == Err(UnknownShareValueType(e.shareValueType))
  {
    if e.shareValueType == PercentageTag then Ok(Shareholder(e.name, Percentage(e.shareValue)))
    else if e.shareValueType == CurrencyTag then
      match e.currency
      case None => Err(MissingCurrency)
      case Some(name) =>
        match CurrencyValueOf(name)
        case Err(err) => Err(err)
        case Ok(c) => Ok(Shareholder(e.name, CurrencyValue(e.shareValue, c)))
    else Err(UnknownShareValueType(e.shareValueType))
  }

  /** `Shareholder.toShareholderEntity`: a new row (id 0) under `propertyId`;
      a percentage stores no currency. */
  function ToShareholderEntity(s: Shareholder, propertyId: string): (e: ShareholderEntity)
    ensures e.id == 0 && e.name == s.name && e.propertyId == propertyId
    ensures s.shareValue.Percentage? ==>
      e.shareValueType == PercentageTag && e.shareValue == s.shareValue.value && e.currency.None?
    ensures s.shareValue.CurrencyValue? ==>
      e.shareValueType == CurrencyTag && e.shareValue == s.shareValue.amount
      && e.currency == Some(CurrencyName(s.shareValue.currency))
  {
    match s.shareValue
    case Percentage(v) => ShareholderEntity(0, s.name, PercentageTag, v, None, propertyId)
    case CurrencyValue(a, c) => ShareholderEntity(0, s.name, CurrencyTag, a, Some(CurrencyName(c)), propertyId)
  }

  lemma ShareholderRoundTrip(s: Shareholder, propertyId: string)
    ensures ToShareholder(ToShareholderEntity(s, propertyId)) == Ok(s)
  {
    if s.shareValue.CurrencyValue? { CurrencyRoundTrip(s.shareValue.currency); }
  }

  /** A shareholder row written by this app (a percentage row has a null
      currency) reads back and writes back to itself, apart from the id; a
      percentage row carrying a currency loses it. */
  lemma ShareholderEntityRoundTrip(e: ShareholderEntity)
    requires ToShareholder(e).Ok?
    ensures e.shareValueType == CurrencyTag || e.currency.None? <==>
      ToShareholderEntity(ToShareholder(e).value, e.propertyId) == e.(id := 0)
  {
  }
}
