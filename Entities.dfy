/** The four Room tables' row types. Enums, dates and the share-value kind
    are stored as text; the three child tables have generated integer keys
    (0 in a row to be inserted means "let the database choose"). */
module Entities {
  import opened Wrappers

  /** One row of `properties`; its key is the caller-chosen text `id`. */
  datatype PropertyEntity = PropertyEntity(
    id: string,
    name: string,
    address: string,
    electricityCodeNumber: Option<string>,
    rentPrice: real,
    rentDuration: string,
    renterName: Option<string>)

  /** One row of `subscriptions`; `propertyId` references `properties.id`. */
  datatype SubscriptionEntity = SubscriptionEntity(id: int, name: string, propertyId: string)

  /** One row of `electricity_bills`; `subscriptionId` references `subscriptions.id`. */
  datatype ElectricityBillEntity = ElectricityBillEntity(
    id: int,
    amount: real,
    currency: string,
    paymentDate: string,
    subscriptionId: int)

  /** One row of `shareholders`; `propertyId` references `properties.id`. */
  datatype ShareholderEntity = ShareholderEntity(
    id: int,
    name: string,
    shareValueType: string,
    shareValue: real,
    currency: Option<string>,
    propertyId: string)

  /** The two tags written to `shareValueType`. */
  const PercentageTag := "percentage"
  const CurrencyTag := "currency"
}
