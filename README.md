# Property manager: storage and screen logic, modelled in Dafny

The application keeps rental properties on an Android device. A property has:

- a rent, a rent duration and an optional renter;
- a list of electricity subscriptions, each holding its payment bills (amount, currency, payment date);
- a list of shareholders, each owning a percentage or a fixed amount in a currency.

This project models the layers below and what the program promises about them.

**The data layer:**

- **Domain models:** `Domain`.
- **Room type converters:** `Converters`. Dates are stored as ISO text and enums by their names.
- **Database entities:** `Entities`.
- **Entity mappers:** `Mappers`, with their round trips.
- **The four DAOs, as operations on a database snapshot:** `Store`. This covers:
  - foreign keys with `ON DELETE CASCADE`;
  - `INSERT OR REPLACE`;
  - auto-generated keys;
  - queries ordered by payment date.
- **The constraints every write keeps:** `StoreValid`.
- **The database object whose tables the DAO writes update:** `Database.PropertyDatabase`.

**The repository:**

- **Its writes, as folds of DAO writes:** `Effects`.
- **Its reads:** `Reads`.
- **What a read returns after a write:** `ReadBack`, `ReadAfterWrite`.
- **The repository class:** `Repository.PropertyRepository`.

**The screen logic:**

- **The bill filter shared by the tabs:** `BillFilters`.
- **The electricity bills tab:** `BillsTab`.
- **The summary tab:** `Summary`.
  - its default current-year range;
  - its per-currency totals;
  - its trend-chart data.
- **The information tab:** `InformationTab`, with its subscription and shareholder dialogs.
- **The property list search:** `PropertySearch`.
- **The add-shareholder dialog:** `ShareholderDialog`.
- **The edit screen:** `EditScreen`.
  - its form;
  - its save button;
  - its filter-indicator text;
  - its screen state.
- **The delete confirmation message:** `ConfirmationDialog`.

**The mock-data helpers of the web front end:** `MockData`.

**Helper modules:**

- `Wrappers`: `Option` and `Result`.
- `Calendar`: proleptic Gregorian dates and day numbers.
- `Digits`: decimal strings.
- `Text`: the Kotlin string operations used.
- `Tables`: ordered rows, keyed lookup, filtering and stable sorts.
- `ListEdits`: list edits by index.

State that the source changes in place is modelled as classes whose methods are proved against the pure functions, with `modifies` clauses:

- the database's tables;
- each screen's remembered state.

The pure functions' properties are proved as lemmas. Things the program gets from its environment are parameters of the model:

- the clock;
- `Math.random`;
- number parsing and printing;
- date formatting for display.

## Model

| member | source | states |
|---|---|---|
| Domain.CurrencyToString | app/src/main/java/com/example/homeassistant/data/models.kt:52-57 | USD prints as "$" and LBP as "L.L.", each exactly when the currency is that one |
| Domain.ShareValueToString | app/src/main/java/com/example/homeassistant/data/models.kt:15-23 | a percentage prints as its number followed by "%"; a currency amount prints as its currency's symbol followed by its number |
| Domain.NewProperty | app/src/main/java/com/example/homeassistant/data/models.kt:30-39 | a property built from the required fields alone has no renter, no electricity code and empty subscription and shareholder lists; EditScreen.SaveNewFormIsNewProperty shows the edit screen builds exactly this for a fresh form |
| Domain.NewSubscription | app/src/main/java/com/example/homeassistant/data/models.kt:41-44 | a new subscription keeps its name and starts with no bills; Reads.SubscriptionsFlowAreNew shows the subscriptions flow yields exactly these |
| Domain.ShareValueTextTellsKind | app/src/main/java/com/example/homeassistant/data/models.kt:15-23 | with a number printer that never writes '%', a share's text ends in '%' exactly when it is a percentage; dropping the '%', or the currency symbol, gives back the number's text |
| Domain.ShareValueTextInjective | app/src/main/java/com/example/homeassistant/data/models.kt:15-23 | with an injective number printer that writes no '%', '$' or 'L', two shares with the same text are the same share: kind, number and currency |
| Converters.FromLocalDate | app/src/main/java/com/example/homeassistant/data/database/converters/Converters.kt:13-15 | a missing date stores as null and a present one as text |
| Converters.ParseIsoDate | app/src/main/java/com/example/homeassistant/data/database/converters/Converters.kt:18-20 | text that is not an ISO date fails with an error naming that text |
| Converters.ToLocalDate | app/src/main/java/com/example/homeassistant/data/database/converters/Converters.kt:18-20 | null reads back as no date, and only null does |
| Converters.DateRoundTrip | app/src/main/java/com/example/homeassistant/data/database/converters/Converters.kt:13-20 | parsing the stored text of any date gives that date back |
| Converters.ParsedDateFormats | app/src/main/java/com/example/homeassistant/data/database/converters/Converters.kt:13-20 | text that parses is exactly the text the date would be stored as |
| Converters.LocalDateConvertersRoundTrip | app/src/main/java/com/example/homeassistant/data/database/converters/Converters.kt:13-20 | storing an optional date and reading it back gives it unchanged |
| Converters.IsoDateShape | app/src/main/java/com/example/homeassistant/data/database/converters/Converters.kt:13-15 | a date with a four-digit year is stored as yyyy-mm-dd, the three fields giving back year, month and day |
| Converters.IsoTextOrder | app/src/main/java/com/example/homeassistant/data/database/converters/Converters.kt:13-15 | for four-digit years, stored date texts order as text exactly as the dates order in time, and equal texts mean equal dates |
| Converters.CurrencyName | app/src/main/java/com/example/homeassistant/data/database/converters/Converters.kt:23-25 | a currency is stored as "USD" or "LBP" |
| Converters.CurrencyValueOf | app/src/main/java/com/example/homeassistant/data/database/converters/Converters.kt:28-30 | `valueOf` succeeds exactly on "USD" and "LBP", giving the currency with that name, and otherwise fails naming the text |
| Converters.CurrencyRoundTrip | app/src/main/java/com/example/homeassistant/data/database/converters/Converters.kt:23-30 | reading a stored currency name gives the currency back |
| Converters.FromCurrency | app/src/main/java/com/example/homeassistant/data/database/converters/Converters.kt:23-25 | null stays null; a currency stores as one of the two names |
| Converters.ToCurrency | app/src/main/java/com/example/homeassistant/data/database/converters/Converters.kt:28-30 | null reads as no currency; the read fails exactly on a name that is neither "USD" nor "LBP" |
| Converters.CurrencyConvertersRoundTrip | app/src/main/java/com/example/homeassistant/data/database/converters/Converters.kt:23-30 | storing an optional currency and reading it back gives it unchanged |
| Converters.RentDurationName | app/src/main/java/com/example/homeassistant/data/database/converters/Converters.kt:33-35 | a rent duration is stored as "MONTHLY" or "YEARLY" |
| Converters.RentDurationValueOf | app/src/main/java/com/example/homeassistant/data/database/converters/Converters.kt:38-40 | `valueOf` succeeds exactly on "MONTHLY" and "YEARLY", giving the duration with that name, and otherwise fails naming the text |
| Converters.RentDurationRoundTrip | app/src/main/java/com/example/homeassistant/data/database/converters/Converters.kt:33-40 | reading a stored duration name gives the duration back |
| Converters.FromRentDuration | app/src/main/java/com/example/homeassistant/data/database/converters/Converters.kt:33-35 | null stays null; a duration stores as one of the two names |
| Converters.ToRentDuration | app/src/main/java/com/example/homeassistant/data/database/converters/Converters.kt:38-40 | null reads as no duration; the read fails exactly on a name that is neither "MONTHLY" nor "YEARLY" |
| Converters.RentDurationConvertersRoundTrip | app/src/main/java/com/example/homeassistant/data/database/converters/Converters.kt:33-40 | storing an optional duration and reading it back gives it unchanged |
| Mappers.ToProperty | app/src/main/java/com/example/homeassistant/data/database/mappers/EntityMappers.kt:9-24 | the property copies every column and takes the given lists; it fails exactly when the stored duration is not a duration name |
| Mappers.ToPropertyEntity | app/src/main/java/com/example/homeassistant/data/database/mappers/EntityMappers.kt:26-36 | the row copies every scalar field and stores the duration by name |
| Mappers.PropertyRoundTrip | app/src/main/java/com/example/homeassistant/data/database/mappers/EntityMappers.kt:9-36 | a property mapped to a row and back, with its own lists, is unchanged |
| Mappers.PropertyEntityRoundTrip | app/src/main/java/com/example/homeassistant/data/database/mappers/EntityMappers.kt:9-36 | a row that maps to a property maps back to the same row |
| Mappers.ToSubscription | app/src/main/java/com/example/homeassistant/data/database/mappers/EntityMappers.kt:39-44 | the subscription takes the row's name and the given bills |
| Mappers.ToSubscriptionEntity | app/src/main/java/com/example/homeassistant/data/database/mappers/EntityMappers.kt:46-51 | the row has id 0 (to be generated), the name and the owning property's id |
| Mappers.SubscriptionRoundTrip | app/src/main/java/com/example/homeassistant/data/database/mappers/EntityMappers.kt:39-51 | a subscription mapped to a row and back, with its bills, is unchanged |
| Mappers.ToElectricityBill | app/src/main/java/com/example/homeassistant/data/database/mappers/EntityMappers.kt:54-60 | the bill fails exactly when the currency name or the date text does not parse; otherwise the amount is kept and currency and date are the ones stored |
| Mappers.ToElectricityBillEntity | app/src/main/java/com/example/homeassistant/data/database/mappers/EntityMappers.kt:62-69 | the row has id 0, the subscription id, the amount, the currency name and the ISO date text |
| Mappers.BillRoundTrip | app/src/main/java/com/example/homeassistant/data/database/mappers/EntityMappers.kt:54-69 | a bill mapped to a row and back is unchanged |
| Mappers.BillEntityRoundTrip | app/src/main/java/com/example/homeassistant/data/database/mappers/EntityMappers.kt:54-69 | a row that maps to a bill maps back to the same row except that its id is 0 |
| Mappers.ToShareholder | app/src/main/java/com/example/homeassistant/data/database/mappers/EntityMappers.kt:72-83 | a "percentage" row gives a percentage; a "currency" row needs a currency and gives that amount in it; a row without a currency, or with another type tag, fails |
| Mappers.ToShareholderEntity | app/src/main/java/com/example/homeassistant/data/database/mappers/EntityMappers.kt:85-101 | a percentage stores with tag "percentage" and no currency; an amount stores with tag "currency" and its currency's name |
| Mappers.ShareholderRoundTrip | app/src/main/java/com/example/homeassistant/data/database/mappers/EntityMappers.kt:72-101 | a shareholder mapped to a row and back is unchanged |
| Mappers.ShareholderEntityRoundTrip | app/src/main/java/com/example/homeassistant/data/database/mappers/EntityMappers.kt:72-101 | a decodable row maps back to itself (id aside) exactly when it is a "currency" row or carries no currency |
| Store.EmptyDb | app/src/main/java/com/example/homeassistant/data/database/PropertyDatabase.kt:18-29 | a new database has four empty tables and meets every constraint |
| Store.GetPropertyById | app/src/main/java/com/example/homeassistant/data/database/dao/PropertyDao.kt:12-13 | the query finds a row with the id exactly when one is stored |
| Store.GetAllProperties | app/src/main/java/com/example/homeassistant/data/database/dao/PropertyDao.kt:9-10 | the query returns every stored row, each as often as it is stored, and no other: the same ids, the same count and the same rows with their column values |
| Store.GetSubscriptionsByPropertyId | app/src/main/java/com/example/homeassistant/data/database/dao/SubscriptionDao.kt:9-10 | the query returns exactly the property's subscription rows, in table order |
| Store.GetSubscriptionById | app/src/main/java/com/example/homeassistant/data/database/dao/SubscriptionDao.kt:12-13 | the query finds a row with the id exactly when one is stored |
| Store.GetBillsBySubscriptionId | app/src/main/java/com/example/homeassistant/data/database/dao/ElectricityBillDao.kt:9-10 | the query returns exactly the subscription's bill rows, ordered newest payment date first |
| Store.GetBillById | app/src/main/java/com/example/homeassistant/data/database/dao/ElectricityBillDao.kt:12-13 | the query finds a row with the id exactly when one is stored |
| Store.OwnedByMeans | app/src/main/java/com/example/homeassistant/data/database/dao/ElectricityBillDao.kt:27-28 | a bill belongs to a property exactly when some subscription of that property has the bill's subscription id, as in the join |
| Store.GetBillsByPropertyId | app/src/main/java/com/example/homeassistant/data/database/dao/ElectricityBillDao.kt:27-28 | the join returns exactly the bills of the property's subscriptions, ordered newest payment date first |
| Store.GetShareholdersByPropertyId | app/src/main/java/com/example/homeassistant/data/database/dao/ShareholderDao.kt:9-10 | the query returns exactly the property's shareholder rows, in table order |
| Store.GetShareholderById | app/src/main/java/com/example/homeassistant/data/database/dao/ShareholderDao.kt:12-13 | the query finds a row with the id exactly when one is stored |
| Store.DeleteBill | app/src/main/java/com/example/homeassistant/data/database/dao/ElectricityBillDao.kt:21-22 | the row with the bill's id is gone, every other bill is kept, and no other table changes |
| Store.DeleteBillsBySubscriptionId | app/src/main/java/com/example/homeassistant/data/database/dao/ElectricityBillDao.kt:24-25 | the subscription has no bills left, other subscriptions keep theirs, and no other table changes |
| Store.DeleteSubscription | app/src/main/java/com/example/homeassistant/data/database/dao/SubscriptionDao.kt:21-22 | the subscription and, by the cascade, its bills are gone; other subscriptions and their bills are kept |
| Store.DeleteSubscriptionsByPropertyId | app/src/main/java/com/example/homeassistant/data/database/dao/SubscriptionDao.kt:24-25 | the property has no subscriptions left; its bills are gone by the cascade; other properties' rows are kept |
| Store.DeleteShareholder | app/src/main/java/com/example/homeassistant/data/database/dao/ShareholderDao.kt:21-22 | the shareholder is gone and every other is kept |
| Store.DeleteShareholdersByPropertyId | app/src/main/java/com/example/homeassistant/data/database/dao/ShareholderDao.kt:24-25 | the property has no shareholders left and other properties keep theirs |
| Store.DeletePropertyById | app/src/main/java/com/example/homeassistant/data/database/dao/PropertyDao.kt:24-25 | the property and, by the cascades, its subscriptions, their bills and its shareholders are gone; every other property reads as before |
| Store.NoSubscriptionsNoBills | app/src/main/java/com/example/homeassistant/data/database/dao/ElectricityBillDao.kt:27-28 | a property without subscriptions has no bills in the join |
| Store.DeleteProperty | app/src/main/java/com/example/homeassistant/data/database/dao/PropertyDao.kt:21-22 | deleting a row deletes by its key, with the same cascade |
| Store.InsertProperty | app/src/main/java/com/example/homeassistant/data/database/dao/PropertyDao.kt:15-16 | `REPLACE`: afterwards the row is stored under its id, and other properties are unchanged. A new id is appended. A replaced row's children are kept, or deleted when a replace cascades |
| Store.UpdateProperty | app/src/main/java/com/example/homeassistant/data/database/dao/PropertyDao.kt:18-19 | the row with the same id is overwritten in place; a missing id changes nothing; no other table changes |
| Store.InsertSubscription | app/src/main/java/com/example/homeassistant/data/database/dao/SubscriptionDao.kt:15-16 | fails with the state unchanged when the property is missing. Otherwise it returns the new row's id: the next counter value for id 0, and it advances the counter |
| Store.UpdateSubscription | app/src/main/java/com/example/homeassistant/data/database/dao/SubscriptionDao.kt:18-19 | a missing id changes nothing; an existing row is overwritten in place unless the new owner is missing, which fails with the state unchanged |
| Store.InsertBill | app/src/main/java/com/example/homeassistant/data/database/dao/ElectricityBillDao.kt:15-16 | fails with the state unchanged when the subscription is missing; otherwise the bill is stored under its issued id and other bills are kept |
| Store.UpdateBill | app/src/main/java/com/example/homeassistant/data/database/dao/ElectricityBillDao.kt:18-19 | a missing id changes nothing; an existing row is overwritten in place unless its subscription is missing, which fails |
| Store.InsertShareholder | app/src/main/java/com/example/homeassistant/data/database/dao/ShareholderDao.kt:15-16 | fails with the state unchanged when the property is missing; otherwise the shareholder is stored under its issued id |
| Store.UpdateShareholder | app/src/main/java/com/example/homeassistant/data/database/dao/ShareholderDao.kt:18-19 | a missing id changes nothing; an existing row is overwritten in place unless its property is missing, which fails |
| Store.UpdateBillReadBack | app/src/main/java/com/example/homeassistant/data/database/dao/ElectricityBillDao.kt:18-19 | after a valid update the bill reads back as written and every other bill as before |
| Store.UpdateShareholderReadBack | app/src/main/java/com/example/homeassistant/data/database/dao/ShareholderDao.kt:18-19 | after a valid update the shareholder reads back as written and every other as before |
| Store.UpdateSubscriptionReadBack | app/src/main/java/com/example/homeassistant/data/database/dao/SubscriptionDao.kt:18-19 | after a valid update the subscription reads back as written and every other as before |
| StoreValid.DeleteBillValid | app/src/main/java/com/example/homeassistant/data/database/dao/ElectricityBillDao.kt:21-22 | deleting a bill keeps keys unique, ids below their counters and every child's parent present |
| StoreValid.DeleteBillsBySubscriptionIdValid | app/src/main/java/com/example/homeassistant/data/database/dao/ElectricityBillDao.kt:24-25 | the delete keeps every table constraint |
| StoreValid.DeleteSubscriptionValid | app/src/main/java/com/example/homeassistant/data/database/entities/DatabaseEntities.kt:40-59 | deleting a subscription with its cascade leaves no bill without its subscription |
| StoreValid.DeleteSubscriptionsByPropertyIdValid | app/src/main/java/com/example/homeassistant/data/database/entities/DatabaseEntities.kt:40-59 | the delete with its cascade keeps every table constraint |
| StoreValid.DeleteShareholderValid | app/src/main/java/com/example/homeassistant/data/database/dao/ShareholderDao.kt:21-22 | deleting a shareholder keeps every table constraint |
| StoreValid.DeleteShareholdersByPropertyIdValid | app/src/main/java/com/example/homeassistant/data/database/dao/ShareholderDao.kt:24-25 | the delete keeps every table constraint |
| StoreValid.DeletePropertyByIdValid | app/src/main/java/com/example/homeassistant/data/database/entities/DatabaseEntities.kt:21-38 | deleting a property with its cascades leaves no subscription, bill or shareholder without its parent |
| StoreValid.InsertPropertyValid | app/src/main/java/com/example/homeassistant/data/database/dao/PropertyDao.kt:15-16 | `REPLACE` keeps every table constraint, whether or not it cascades |
| StoreValid.UpdatePropertyValid | app/src/main/java/com/example/homeassistant/data/database/dao/PropertyDao.kt:18-19 | the update keeps every table constraint |
| StoreValid.InsertSubscriptionValid | app/src/main/java/com/example/homeassistant/data/database/entities/DatabaseEntities.kt:21-38 | the insert keeps keys unique and ids below the counter, and admits no subscription without its property |
| StoreValid.UpdateSubscriptionValid | app/src/main/java/com/example/homeassistant/data/database/dao/SubscriptionDao.kt:18-19 | the update keeps every table constraint |
| StoreValid.InsertBillValid | app/src/main/java/com/example/homeassistant/data/database/entities/DatabaseEntities.kt:40-59 | the insert keeps every table constraint and admits no bill without its subscription |
| StoreValid.UpdateBillValid | app/src/main/java/com/example/homeassistant/data/database/dao/ElectricityBillDao.kt:18-19 | the update keeps every table constraint |
| StoreValid.InsertShareholderValid | app/src/main/java/com/example/homeassistant/data/database/entities/DatabaseEntities.kt:61-80 | the insert keeps every table constraint and admits no shareholder without its property |
| StoreValid.UpdateShareholderValid | app/src/main/java/com/example/homeassistant/data/database/dao/ShareholderDao.kt:18-19 | the update keeps every table constraint |
| Database.PropertyDatabase.constructor | app/src/main/java/com/example/homeassistant/data/database/PropertyDatabase.kt:18-29 | a new database object holds the empty tables and meets every constraint |
| Database.PropertyDatabase.InsertProperty | app/src/main/java/com/example/homeassistant/data/database/dao/PropertyDao.kt:15-16 | the tables become `Store.InsertProperty` of the old tables, and the constraints are kept |
| Database.PropertyDatabase.UpdateProperty | app/src/main/java/com/example/homeassistant/data/database/dao/PropertyDao.kt:18-19 | the tables become `Store.UpdateProperty` of the old tables, and the constraints are kept |
| Database.PropertyDatabase.DeleteProperty | app/src/main/java/com/example/homeassistant/data/database/dao/PropertyDao.kt:21-22 | the tables become `Store.DeleteProperty` of the old tables, and the constraints are kept |
| Database.PropertyDatabase.DeletePropertyById | app/src/main/java/com/example/homeassistant/data/database/dao/PropertyDao.kt:24-25 | the tables become `Store.DeletePropertyById` of the old tables, and the constraints are kept |
| Database.PropertyDatabase.InsertSubscription | app/src/main/java/com/example/homeassistant/data/database/dao/SubscriptionDao.kt:15-16 | returns the id or the error of `Store.InsertSubscription`, and the tables become its new state, and the constraints are kept |
| Database.PropertyDatabase.UpdateSubscription | app/src/main/java/com/example/homeassistant/data/database/dao/SubscriptionDao.kt:18-19 | the result and the tables are those of `Store.UpdateSubscription`, and the constraints are kept |
| Database.PropertyDatabase.DeleteSubscription | app/src/main/java/com/example/homeassistant/data/database/dao/SubscriptionDao.kt:21-22 | the tables become `Store.DeleteSubscription` of the old tables, and the constraints are kept |
| Database.PropertyDatabase.DeleteSubscriptionsByPropertyId | app/src/main/java/com/example/homeassistant/data/database/dao/SubscriptionDao.kt:24-25 | the tables become `Store.DeleteSubscriptionsByPropertyId` of the old tables, and the constraints are kept |
| Database.PropertyDatabase.InsertBill | app/src/main/java/com/example/homeassistant/data/database/dao/ElectricityBillDao.kt:15-16 | the result and the tables are those of `Store.InsertBill`, and the constraints are kept |
| Database.PropertyDatabase.UpdateBill | app/src/main/java/com/example/homeassistant/data/database/dao/ElectricityBillDao.kt:18-19 | the result and the tables are those of `Store.UpdateBill`, and the constraints are kept |
| Database.PropertyDatabase.DeleteBill | app/src/main/java/com/example/homeassistant/data/database/dao/ElectricityBillDao.kt:21-22 | the tables become `Store.DeleteBill` of the old tables, and the constraints are kept |
| Database.PropertyDatabase.DeleteBillsBySubscriptionId | app/src/main/java/com/example/homeassistant/data/database/dao/ElectricityBillDao.kt:24-25 | the tables become `Store.DeleteBillsBySubscriptionId` of the old tables, and the constraints are kept |
| Database.PropertyDatabase.InsertShareholder | app/src/main/java/com/example/homeassistant/data/database/dao/ShareholderDao.kt:15-16 | the result and the tables are those of `Store.InsertShareholder`, and the constraints are kept |
| Database.PropertyDatabase.UpdateShareholder | app/src/main/java/com/example/homeassistant/data/database/dao/ShareholderDao.kt:18-19 | the result and the tables are those of `Store.UpdateShareholder`, and the constraints are kept |
| Database.PropertyDatabase.DeleteShareholder | app/src/main/java/com/example/homeassistant/data/database/dao/ShareholderDao.kt:21-22 | the tables become `Store.DeleteShareholder` of the old tables, and the constraints are kept |
| Database.PropertyDatabase.DeleteShareholdersByPropertyId | app/src/main/java/com/example/homeassistant/data/database/dao/ShareholderDao.kt:24-25 | the tables become `Store.DeleteShareholdersByPropertyId` of the old tables, and the constraints are kept |
| Effects.AddBills | app/src/main/java/com/example/homeassistant/data/repository/PropertyRepository.kt:51-53 | inserting no bills changes nothing; bills for a missing subscription fail at the first insert with the state unchanged; only the bill table and its counter change |
| Effects.AddSubscription | app/src/main/java/com/example/homeassistant/data/repository/PropertyRepository.kt:93-101 | a missing property fails with the state unchanged; only the subscription and bill tables and their counters change |
| Effects.AddSubscriptions | app/src/main/java/com/example/homeassistant/data/repository/PropertyRepository.kt:46-54 | no subscriptions changes nothing; a missing property fails with the state unchanged; only the subscription and bill tables change |
| Effects.AddShareholders | app/src/main/java/com/example/homeassistant/data/repository/PropertyRepository.kt:57-59 | no shareholders changes nothing; a missing property fails with the state unchanged; only the shareholder table changes |
| Effects.AddBillsStep | app/src/main/java/com/example/homeassistant/data/repository/PropertyRepository.kt:51-53 | the loop stops at the first insert that throws; otherwise the rest run on the state the first left |
| Effects.AddSubscriptionsStep | app/src/main/java/com/example/homeassistant/data/repository/PropertyRepository.kt:46-54 | the loop stops at the first subscription whose insert throws; otherwise the rest run on the state the first left |
| Effects.AddShareholdersStep | app/src/main/java/com/example/homeassistant/data/repository/PropertyRepository.kt:57-59 | the loop stops at the first insert that throws; otherwise the rest run on the state the first left |
| Effects.InsertBillAppends | app/src/main/java/com/example/homeassistant/data/database/dao/ElectricityBillDao.kt:15-16 | a bill with id 0 for a stored subscription is appended under the next bill id, which then advances |
| Effects.AddBillsAppends | app/src/main/java/com/example/homeassistant/data/repository/PropertyRepository.kt:51-53 | all the bills of a stored subscription are appended in order under consecutive fresh ids |
| Effects.InsertSubscriptionAppends | app/src/main/java/com/example/homeassistant/data/database/dao/SubscriptionDao.kt:15-16 | a subscription with id 0 for a stored property is appended under the next id, which the insert returns |
| Effects.AddSubscriptionAppends | app/src/main/java/com/example/homeassistant/data/repository/PropertyRepository.kt:93-101 | for a stored property the subscription row is appended, and then its bills under the id the insert returned |
| Effects.AddSubscriptionsAppend | app/src/main/java/com/example/homeassistant/data/repository/PropertyRepository.kt:46-54 | for a stored property all the subscriptions, each with its bills, are appended in order |
| Effects.InsertShareholderAppends | app/src/main/java/com/example/homeassistant/data/database/dao/ShareholderDao.kt:15-16 | a shareholder with id 0 for a stored property is appended under the next id |
| Effects.AddShareholdersAppend | app/src/main/java/com/example/homeassistant/data/repository/PropertyRepository.kt:57-59 | for a stored property all the shareholders are appended in order under fresh ids |
| Effects.AddBillsValid | app/src/main/java/com/example/homeassistant/data/repository/PropertyRepository.kt:51-53 | adding bills keeps every table constraint, whether or not an insert fails |
| Effects.AddSubscriptionValid | app/src/main/java/com/example/homeassistant/data/repository/PropertyRepository.kt:93-101 | adding a subscription with its bills keeps every table constraint |
| Effects.AddSubscriptionsValid | app/src/main/java/com/example/homeassistant/data/repository/PropertyRepository.kt:46-54 | adding the subscriptions keeps every table constraint |
| Effects.AddShareholdersValid | app/src/main/java/com/example/homeassistant/data/repository/PropertyRepository.kt:57-59 | adding the shareholders keeps every table constraint |
| Effects.InsertFullProperty | app/src/main/java/com/example/homeassistant/data/repository/PropertyRepository.kt:41-60 | after saving a new property its row is stored under its id, whatever happens to the children |
| Effects.UpdateFullProperty | app/src/main/java/com/example/homeassistant/data/repository/PropertyRepository.kt:62-85 | after updating a stored property its row holds the new fields |
| Effects.InsertFullPropertyAppends | app/src/main/java/com/example/homeassistant/data/repository/PropertyRepository.kt:41-60 | on a valid database the save succeeds: it is the `REPLACE` followed by appending all subscriptions, bills and shareholders, and the constraints are kept |
| Effects.UpdateFullPropertyReplaces | app/src/main/java/com/example/homeassistant/data/repository/PropertyRepository.kt:62-85 | for a stored property the update succeeds. It is the row overwrite, then deletion of the old subscriptions, bills and shareholders, then appending the new ones; the constraints are kept |
| Effects.UpdateFullPropertyMissing | app/src/main/java/com/example/homeassistant/data/repository/PropertyRepository.kt:62-85 | for a missing property nothing changes, and the update succeeds exactly when there are no children to insert, because the first child insert throws |
| Effects.AddChildrenAppends | app/src/main/java/com/example/homeassistant/data/repository/PropertyRepository.kt:45-59 | for a stored property inserting the children succeeds and appends exactly them, keeping the constraints |
| Effects.ClearChildrenValid | app/src/main/java/com/example/homeassistant/data/repository/PropertyRepository.kt:66-68 | deleting a property's subscriptions and shareholders keeps the constraints and the property rows |
| Effects.ClearChildrenOfMissing | app/src/main/java/com/example/homeassistant/data/repository/PropertyRepository.kt:66-68 | a property that is not stored has no children to delete |
| Effects.AddBill | app/src/main/java/com/example/homeassistant/data/repository/PropertyRepository.kt:104-106 | adding a bill fails exactly when the subscription is missing |
| Effects.EditBill | app/src/main/java/com/example/homeassistant/data/repository/PropertyRepository.kt:108-112 | editing a bill id that is not stored changes nothing |
| Effects.RemoveBill | app/src/main/java/com/example/homeassistant/data/repository/PropertyRepository.kt:114-119 | the bill is gone, every other bill reads as before, and nothing else changes |
| Effects.AddShareholder | app/src/main/java/com/example/homeassistant/data/repository/PropertyRepository.kt:122-124 | adding a shareholder fails exactly when the property is missing |
| Effects.EditShareholder | app/src/main/java/com/example/homeassistant/data/repository/PropertyRepository.kt:126-130 | editing a shareholder id that is not stored changes nothing |
| Effects.RemoveShareholder | app/src/main/java/com/example/homeassistant/data/repository/PropertyRepository.kt:132-137 | the shareholder is gone, every other reads as before, and nothing else changes |
| Effects.EditBillReadBack | app/src/main/java/com/example/homeassistant/data/repository/PropertyRepository.kt:108-112 | editing a stored bill under a stored subscription succeeds. The bill then reads back as the given bill of that subscription, and every other bill is unchanged |
| Effects.EditShareholderReadBack | app/src/main/java/com/example/homeassistant/data/repository/PropertyRepository.kt:126-130 | editing a stored shareholder under a stored property succeeds. It then reads back as the given shareholder of that property, and every other is unchanged |
| Effects.SingleWritesValid | app/src/main/java/com/example/homeassistant/data/repository/PropertyRepository.kt:104-137 | every single bill and shareholder add, edit and delete keeps the table constraints |
| Reads.DecodeAll | app/src/main/java/com/example/homeassistant/data/repository/PropertyRepository.kt:142-146 | mapping rows succeeds exactly when every row decodes, giving the decoded rows in order; otherwise the error is that of the first row that fails |
| Reads.LoadSubscription | app/src/main/java/com/example/homeassistant/data/repository/PropertyRepository.kt:142-146 | a subscription loads exactly when all its bill rows decode, and then has the row's name and those bills in query order |
| Reads.LoadSubscriptions | app/src/main/java/com/example/homeassistant/data/repository/PropertyRepository.kt:140-147 | a property's loaded subscriptions are one per subscription row |
| Reads.LoadShareholders | app/src/main/java/com/example/homeassistant/data/repository/PropertyRepository.kt:149-152 | a property's loaded shareholders are one per shareholder row |
| Reads.AssembleProperty | app/src/main/java/com/example/homeassistant/data/repository/PropertyRepository.kt:30-35 | an assembled property maps back to its row and holds the loaded subscriptions and shareholders |
| Reads.CompletePropertyById | app/src/main/java/com/example/homeassistant/data/repository/PropertyRepository.kt:30-35 | the read gives null exactly when no row has the id; otherwise the property has that id and maps back to the stored row |
| Reads.AllProperties | app/src/main/java/com/example/homeassistant/data/repository/PropertyRepository.kt:19-28 | all properties are assembled, one per stored row |
| Reads.AllPropertiesById | app/src/main/java/com/example/homeassistant/data/repository/PropertyRepository.kt:19-35 | with unique ids each property in the full list is what the read by its id returns, and if the list fails some read by id fails |
| Reads.SubscriptionsForPropertyFlow | app/src/main/java/com/example/homeassistant/data/repository/PropertyRepository.kt:155-161 | the observed subscriptions are one per row, with the row's name and no bills loaded |
| Reads.SubscriptionsFlowAreNew | app/src/main/java/com/example/homeassistant/data/repository/PropertyRepository.kt:155-161 | each subscription the flow yields is the defaulted constructor applied to its row's name |
| Reads.BillsByProperty | app/src/main/java/com/example/homeassistant/data/repository/PropertyRepository.kt:170-174 | the property's bills decode one for one from the join's rows |
| Reads.NewestFirst | app/src/main/java/com/example/homeassistant/data/database/dao/ElectricityBillDao.kt:9-10 | ordering bills newest first keeps exactly the same bills |
| Reads.NewestFirstAll | app/src/main/java/com/example/homeassistant/data/database/dao/ElectricityBillDao.kt:9-10 | each subscription keeps its name and place, with its bills ordered newest first |
| Reads.AsReadBack | app/src/main/java/com/example/homeassistant/data/repository/PropertyRepository.kt:140-147 | what a saved property reads back as: the same property, except that each subscription's bills are ordered newest first |
| Reads.NewestFirstChronological | app/src/main/java/com/example/homeassistant/data/database/dao/ElectricityBillDao.kt:9-10 | for four-digit years, no bill in the ordered list is paid before a bill after it |
| ReadBack.BillRowsDecode | app/src/main/java/com/example/homeassistant/data/repository/PropertyRepository.kt:51-53 | each appended bill row decodes to the bill it came from |
| ReadBack.ShareholderRowsDecode | app/src/main/java/com/example/homeassistant/data/repository/PropertyRepository.kt:57-59 | the appended shareholder rows decode back to the shareholders, in order |
| ReadBack.NoBillsAbove | app/src/main/java/com/example/homeassistant/data/database/entities/DatabaseEntities.kt:40-59 | no stored bill refers to a subscription id not yet issued |
| ReadBack.NoChildrenOfMissing | app/src/main/java/com/example/homeassistant/data/database/entities/DatabaseEntities.kt:21-38 | a property that is not stored has no subscriptions and no shareholders |
| ReadBack.CascadeKeepsOtherBills | app/src/main/java/com/example/homeassistant/data/database/entities/DatabaseEntities.kt:40-59 | deleting one property's subscriptions keeps the bills of another property's subscriptions |
| ReadBack.SameRowsSameRead | app/src/main/java/com/example/homeassistant/data/repository/PropertyRepository.kt:30-35 | two databases with the same rows for a property read that property identically |
| ReadBack.BillsBySubscriptionSorted | app/src/main/java/com/example/homeassistant/data/database/dao/ElectricityBillDao.kt:9-10 | the bill query is the stable newest-first sort of the subscription's rows |
| ReadBack.LoadBills | app/src/main/java/com/example/homeassistant/data/repository/PropertyRepository.kt:143-145 | rows that decode to some bills load as those bills, newest first |
| ReadBack.LoadAppended | app/src/main/java/com/example/homeassistant/data/repository/PropertyRepository.kt:140-147 | appended subscription rows whose bills decode load back as those subscriptions with bills newest first |
| ReadBack.AppendedLoads | app/src/main/java/com/example/homeassistant/data/repository/PropertyRepository.kt:41-60 | a property's appended child rows are its only children, and they load back as its subscriptions (bills newest first) and its shareholders |
| ReadBack.AppendedReadBack | app/src/main/java/com/example/homeassistant/data/repository/PropertyRepository.kt:41-60 | after the children are appended the property reads back as saved, with bills newest first |
| ReadBack.AppendedOthers | app/src/main/java/com/example/homeassistant/data/repository/PropertyRepository.kt:41-60 | appending one property's children does not change what any other property reads as |
| ReadAfterWrite.InsertKeepsOtherRows | app/src/main/java/com/example/homeassistant/data/database/dao/PropertyDao.kt:15-16 | `REPLACE` leaves every other property row as it was |
| ReadAfterWrite.UpdateKeepsOtherRows | app/src/main/java/com/example/homeassistant/data/database/dao/PropertyDao.kt:18-19 | the update leaves every other property row as it was |
| ReadAfterWrite.ClearChildrenKeepsOthers | app/src/main/java/com/example/homeassistant/data/repository/PropertyRepository.kt:66-68 | deleting one property's children does not change what another property reads as |
| ReadAfterWrite.DeletePropertyRead | app/src/main/java/com/example/homeassistant/data/repository/PropertyRepository.kt:87-90 | after deleting a property it reads as null, and every other property reads as before |
| ReadAfterWrite.InsertFullPropertyReadBack | app/src/main/java/com/example/homeassistant/data/repository/PropertyRepository.kt:41-60 | when the id is new, or a replace cascades, saving succeeds and the property then reads back as saved (bills newest first) |
| ReadAfterWrite.InsertFullPropertyKeepsOldChildren | app/src/main/java/com/example/homeassistant/data/repository/PropertyRepository.kt:41-60 | when a replace does not cascade (a database without foreign-key enforcement, not the app's Room setup), re-saving a stored id keeps the old subscription rows next to the new ones |
| ReadAfterWrite.InsertFullPropertyOthers | app/src/main/java/com/example/homeassistant/data/repository/PropertyRepository.kt:41-60 | saving a property does not change what any other property reads as |
| ReadAfterWrite.UpdateFullPropertyReadBack | app/src/main/java/com/example/homeassistant/data/repository/PropertyRepository.kt:62-85 | updating a stored property succeeds and it then reads back as given (bills newest first) |
| ReadAfterWrite.UpdateFullPropertyOthers | app/src/main/java/com/example/homeassistant/data/repository/PropertyRepository.kt:62-85 | updating a property does not change what any other property reads as |
| Repository.PropertyRepository.constructor | app/src/main/java/com/example/homeassistant/data/repository/PropertyRepository.kt:10-16 | the repository works on the given database |
| Repository.PropertyRepository.GetAllProperties | app/src/main/java/com/example/homeassistant/data/repository/PropertyRepository.kt:19-28 | returns all properties assembled; with unique ids each is what the read by its id gives |
| Repository.PropertyRepository.GetCompletePropertyById | app/src/main/java/com/example/homeassistant/data/repository/PropertyRepository.kt:30-35 | returns the assembled property, and null exactly when no row has the id |
| Repository.PropertyRepository.GetPropertyById | app/src/main/java/com/example/homeassistant/data/repository/PropertyRepository.kt:37-39 | returns the same as the complete read |
| Repository.PropertyRepository.InsertProperty | app/src/main/java/com/example/homeassistant/data/repository/PropertyRepository.kt:41-60 | performs the save function. On a valid database it succeeds and keeps the constraints. A new id (or a cascading replace) reads back as saved. Other properties read as before |
| Repository.PropertyRepository.UpdateProperty | app/src/main/java/com/example/homeassistant/data/repository/PropertyRepository.kt:62-85 | performs the update function. A stored property reads back as given. A missing one leaves the state unchanged, and the call fails exactly when it has children. Other properties read as before |
| Repository.PropertyRepository.DeleteProperty | app/src/main/java/com/example/homeassistant/data/repository/PropertyRepository.kt:87-90 | the property with all its children is deleted and reads as null; other properties read as before; the constraints are kept |
| Repository.PropertyRepository.InsertSubscriptions | app/src/main/java/com/example/homeassistant/data/repository/PropertyRepository.kt:46-54 | the loop over the subscriptions performs the fold `Effects.AddSubscriptions` |
| Repository.PropertyRepository.InsertShareholders | app/src/main/java/com/example/homeassistant/data/repository/PropertyRepository.kt:57-59 | the loop over the shareholders performs the fold `Effects.AddShareholders` |
| Repository.PropertyRepository.InsertBills | app/src/main/java/com/example/homeassistant/data/repository/PropertyRepository.kt:51-53 | the loop over the bills performs the fold `Effects.AddBills` |
| Repository.PropertyRepository.AddSubscriptionToProperty | app/src/main/java/com/example/homeassistant/data/repository/PropertyRepository.kt:93-101 | fails with no change for a missing property; otherwise succeeds, appending the subscription and its bills; the constraints are kept |
| Repository.PropertyRepository.GetSubscriptionsForPropertyFlow | app/src/main/java/com/example/homeassistant/data/repository/PropertyRepository.kt:155-161 | returns the property's subscriptions without their bills |
| Repository.PropertyRepository.AddElectricityBill | app/src/main/java/com/example/homeassistant/data/repository/PropertyRepository.kt:104-106 | fails exactly when the subscription is missing; the constraints are kept |
| Repository.PropertyRepository.UpdateElectricityBill | app/src/main/java/com/example/homeassistant/data/repository/PropertyRepository.kt:108-112 | a missing bill id changes nothing. Otherwise the bill reads back as given under the given subscription, and every other bill is unchanged |
| Repository.PropertyRepository.DeleteElectricityBill | app/src/main/java/com/example/homeassistant/data/repository/PropertyRepository.kt:114-119 | the bill is gone whether or not it was stored; every other bill is unchanged |
| Repository.PropertyRepository.GetBillsByPropertyId | app/src/main/java/com/example/homeassistant/data/repository/PropertyRepository.kt:170-174 | returns the decoded bills of the property's subscriptions, newest first |
| Repository.PropertyRepository.AddShareholderToProperty | app/src/main/java/com/example/homeassistant/data/repository/PropertyRepository.kt:122-124 | fails exactly when the property is missing; the constraints are kept |
| Repository.PropertyRepository.UpdateShareholder | app/src/main/java/com/example/homeassistant/data/repository/PropertyRepository.kt:126-130 | a missing shareholder id changes nothing. Otherwise it reads back as given under the given property, and every other shareholder is unchanged |
| Repository.PropertyRepository.DeleteShareholder | app/src/main/java/com/example/homeassistant/data/repository/PropertyRepository.kt:132-137 | the shareholder is gone whether or not it was stored; every other is unchanged |
| Repository.PropertyRepository.GetShareholdersForPropertyFlow | app/src/main/java/com/example/homeassistant/data/repository/PropertyRepository.kt:163-167 | returns the property's shareholders decoded from their rows |
| Text.Contains | app/src/main/java/com/example/homeassistant/ui/screens/PropertyListScreen.kt:49-60 | `contains` holds exactly when the query occurs at some position of the text |
| Text.ContainsEmpty | app/src/main/java/com/example/homeassistant/ui/screens/PropertyListScreen.kt:49-60 | every text contains the empty query |
| Text.ContainsItself | app/src/main/java/com/example/homeassistant/ui/screens/PropertyListScreen.kt:49-60 | every text contains itself, ignoring case |
| Text.ContainsIgnoresQueryCase | app/src/main/java/com/example/homeassistant/ui/screens/PropertyListScreen.kt:49-60 | lowercasing the query does not change what it finds |
| Text.ContainsInside | app/src/main/java/com/example/homeassistant/ui/screens/PropertyListScreen.kt:49-60 | a query occurring anywhere inside a text is found |
| Text.LongerNeverContained | app/src/main/java/com/example/homeassistant/ui/screens/PropertyListScreen.kt:49-60 | a query longer than the text is never found |
| ListEdits.RemoveAt | app/src/main/java/com/example/homeassistant/ui/tabs/InformationTab.kt:503-518 | removing at an index keeps the elements before it in place, shifts the later ones down by one and removes exactly one copy of that element |
| ListEdits.IndexOf | app/src/main/java/com/example/homeassistant/ui/tabs/ElectricityBillsTab.kt:207 | `indexOf` is -1 exactly when the element is absent, and otherwise the first position holding it |
| ListEdits.SetAt | app/src/main/java/com/example/homeassistant/ui/tabs/ElectricityBillsTab.kt:256-277 | writing at an index changes that position only |
| ListEdits.ReplaceFirst | app/src/main/java/com/example/homeassistant/ui/tabs/InformationTab.kt:533-550 | replacing the first equal element fails exactly when none is equal. Otherwise only the first position holding the target is overwritten |
| BillFilters.MatchesInRange | app/src/main/java/com/example/homeassistant/ui/tabs/ElectricityBillsTab.kt:81-93 | a bill passes exactly when it is on or after the from date, on or before the to date and in the currency, for each part that is set |
| BillFilters.NoFilterMatches | app/src/main/java/com/example/homeassistant/ui/tabs/ElectricityBillsTab.kt:81-93 | with no filter set every bill passes |
| BillFilters.FilterOne | app/src/main/java/com/example/homeassistant/ui/tabs/ElectricityBillsTab.kt:81-93 | the filtered subscription keeps its name and, in order, exactly the bills that pass |
| BillFilters.RemoveMatching | app/src/main/java/com/example/homeassistant/ui/tabs/ElectricityBillsTab.kt:304-319 | the pruned subscription keeps its name and, in order, exactly the bills that do not pass |
| BillFilters.FilterSubscriptions | app/src/main/java/com/example/homeassistant/ui/tabs/ElectricityBillsTab.kt:81-93 | every subscription keeps its place and name and keeps, in order, exactly its bills that pass |
| BillFilters.DeleteAllMatching | app/src/main/java/com/example/homeassistant/ui/tabs/ElectricityBillsTab.kt:304-319 | every subscription keeps its place and name and keeps, in order, exactly its bills that do not pass |
| BillFilters.DeleteAllRemovesShown | app/src/main/java/com/example/homeassistant/ui/tabs/ElectricityBillsTab.kt:304-319 | delete-all removes from each subscription exactly the bills the filtered view shows: what is kept plus what is shown is what was there |
| BillFilters.DeleteAllLeavesNothingShown | app/src/main/java/com/example/homeassistant/ui/tabs/ElectricityBillsTab.kt:304-319 | after delete-all, the same filter shows no bills |
| BillFilters.DeleteAllEnabledMeans | app/src/main/java/com/example/homeassistant/ui/tabs/ElectricityBillsTab.kt:120 | the delete-all button is enabled exactly when deleting with no filter would change the list |
| BillsTab.AddBillAt | app/src/main/java/com/example/homeassistant/ui/tabs/ElectricityBillsTab.kt:243-251 | the global add appends the bill to the chosen subscription only |
| BillsTab.EditBillAt | app/src/main/java/com/example/homeassistant/ui/tabs/ElectricityBillsTab.kt:256-277 | the edit overwrites the chosen bill of the chosen subscription only |
| BillsTab.RemoveBillAt | app/src/main/java/com/example/homeassistant/ui/tabs/ElectricityBillsTab.kt:285-293 | the delete removes exactly the chosen bill from the chosen subscription; other subscriptions are unchanged |
| BillsTab.RemoveAddedBill | app/src/main/java/com/example/homeassistant/ui/tabs/ElectricityBillsTab.kt:243-293 | deleting the bill just added gives the list back |
| BillsTab.EditUnchanged | app/src/main/java/com/example/homeassistant/ui/tabs/ElectricityBillsTab.kt:256-277 | saving a bill unedited leaves the list as it was |
| BillsTab.EditTwice | app/src/main/java/com/example/homeassistant/ui/tabs/ElectricityBillsTab.kt:256-277 | a second edit of the same bill overrides the first |
| BillsTab.BillsEmptyText | app/src/main/java/com/example/homeassistant/ui/tabs/ElectricityBillsTab.kt:196-198 | an empty tab says "No bills added yet" exactly when the subscription has no bills, and otherwise that no bill matches the filter |
| BillsTab.EmptyTextMeans | app/src/main/java/com/example/homeassistant/ui/tabs/ElectricityBillsTab.kt:196-198 | for an empty filtered tab, the "match" text shows exactly when the subscription has bills and none passes the filter |
| BillsTab.ShownBillFound | app/src/main/java/com/example/homeassistant/ui/tabs/ElectricityBillsTab.kt:207 | a bill the filtered view shows is found in the unfiltered list, at a position holding it |
| BillsTab.ElectricityBillsTab.constructor | app/src/main/java/com/example/homeassistant/ui/tabs/ElectricityBillsTab.kt:69-78 | the tab starts with no dialog open, no bill selected, no pending delete and the first tab selected |
| BillsTab.ElectricityBillsTab.ShownTab | app/src/main/java/com/example/homeassistant/ui/tabs/ElectricityBillsTab.kt:158 | the tab row shows the remembered tab, clamped to the last subscription |
| BillsTab.ElectricityBillsTab.SelectTab | app/src/main/java/com/example/homeassistant/ui/tabs/ElectricityBillsTab.kt:163 | a tab click selects that tab and changes nothing else |
| BillsTab.ElectricityBillsTab.ClampTab | app/src/main/java/com/example/homeassistant/ui/tabs/ElectricityBillsTab.kt:172-174 | when the list shrinks below the selected tab, the selection moves to the last tab (or 0); nothing else changes |
| BillsTab.ElectricityBillsTab.OnEditClick | app/src/main/java/com/example/homeassistant/ui/tabs/ElectricityBillsTab.kt:210-214 | an edit click selects exactly the clicked bill in the unfiltered list of the shown tab and opens the edit dialog |
| BillsTab.ElectricityBillsTab.OnDeleteClick | app/src/main/java/com/example/homeassistant/ui/tabs/ElectricityBillsTab.kt:215-228 | a delete click selects exactly the clicked bill, remembers the delete over the current list and opens the confirmation |
| BillsTab.ElectricityBillsTab.ConfirmDelete | app/src/main/java/com/example/homeassistant/ui/tabs/ElectricityBillsTab.kt:285-293 | the confirmation runs the pending delete, if any, on the list it captured, and closes with nothing pending |
| BillsTab.ElectricityBillsTab.DismissDelete | app/src/main/java/com/example/homeassistant/ui/tabs/ElectricityBillsTab.kt:285-293 | dismissing closes the confirmation and drops the pending delete |
| BillsTab.ElectricityBillsTab.SaveEdit | app/src/main/java/com/example/homeassistant/ui/tabs/ElectricityBillsTab.kt:256-277 | saving overwrites the selected bill, closes the dialog and clears the selection |
| BillsTab.ElectricityBillsTab.DismissEdit | app/src/main/java/com/example/homeassistant/ui/tabs/ElectricityBillsTab.kt:256-277 | dismissing closes the dialog and clears the selection |
| BillsTab.ElectricityBillsTab.OnDeleteAllClick | app/src/main/java/com/example/homeassistant/ui/tabs/ElectricityBillsTab.kt:120 | the delete-all button opens its confirmation |
| BillsTab.ElectricityBillsTab.ConfirmDeleteAll | app/src/main/java/com/example/homeassistant/ui/tabs/ElectricityBillsTab.kt:304-319 | confirming hands over the list with every bill passing the filter removed, and closes |
| BillsTab.ElectricityBillsTab.DismissDeleteAll | app/src/main/java/com/example/homeassistant/ui/tabs/ElectricityBillsTab.kt:304-319 | dismissing closes the delete-all confirmation only |
| ConfirmationDialog.BuildFullMessage | app/src/main/java/com/example/homeassistant/ui/components/dialogs/ConfirmationDialog.kt:21-32 | the `buildString` block yields the message whose shape the three lemmas below state |
| ConfirmationDialog.MessageIsPrefix | app/src/main/java/com/example/homeassistant/ui/components/dialogs/ConfirmationDialog.kt:21-32 | the message always starts with the given text |
| ConfirmationDialog.SuffixIffFilter | app/src/main/java/com/example/homeassistant/ui/components/dialogs/ConfirmationDialog.kt:21-32 | the message gains a filter section exactly when a from or to date is set |
| ConfirmationDialog.FromLineBeforeToLine | app/src/main/java/com/example/homeassistant/ui/components/dialogs/ConfirmationDialog.kt:21-32 | with both dates the message is the text, the filter header, the "From" line and then the "To" line |
| PropertySearch.FilteredProperties | app/src/main/java/com/example/homeassistant/ui/screens/PropertyListScreen.kt:49-60 | a blank query shows every property. Otherwise exactly the properties whose name, address, renter or electricity code contains the query in any case, in list order, each matching entry kept as often as it occurs |
| PropertySearch.AbsentFieldsNeverMatch | app/src/main/java/com/example/homeassistant/ui/screens/PropertyListScreen.kt:49-60 | a property without renter or code is found only through its name or address |
| PropertySearch.SearchIdempotent | app/src/main/java/com/example/homeassistant/ui/screens/PropertyListScreen.kt:49-60 | searching the result again with the same query changes nothing |
| PropertySearch.FoundByName | app/src/main/java/com/example/homeassistant/ui/screens/PropertyListScreen.kt:49-60 | every property is found by its own name |
| PropertySearch.FoundByAddressPart | app/src/main/java/com/example/homeassistant/ui/screens/PropertyListScreen.kt:49-60 | a property is found by any part of its address |
| ShareholderDialog.InitialForm | app/src/main/java/com/example/homeassistant/ui/components/dialogs/AddShareholderDialog.kt:44-48 | the dialog opens empty, on percentage, with USD selected |
| ShareholderDialog.Confirm | app/src/main/java/com/example/homeassistant/ui/components/dialogs/AddShareholderDialog.kt:172-192 | "Add" is enabled exactly when the name is not blank and the value of the chosen type parses to a positive number, and it gives a shareholder of that name and kind |
| ShareholderDialog.ConfirmedIsValid | app/src/main/java/com/example/homeassistant/ui/components/dialogs/AddShareholderDialog.kt:172-192 | every shareholder the dialog yields has a non-blank name, a positive value and the chosen kind |
| ShareholderDialog.OtherFieldIgnored | app/src/main/java/com/example/homeassistant/ui/components/dialogs/AddShareholderDialog.kt:172-192 | the value field of the type not chosen has no effect |
| ShareholderDialog.EveryValidShareholderEnterable | app/src/main/java/com/example/homeassistant/ui/components/dialogs/AddShareholderDialog.kt:172-192 | every shareholder with a non-blank name and positive value can be entered through the dialog |
| InformationTab.DurationLabel | app/src/main/java/com/example/homeassistant/ui/tabs/InformationTab.kt:178 | the radio labels read "Monthly" and "Yearly" |
| InformationTab.DurationLabelsDistinct | app/src/main/java/com/example/homeassistant/ui/tabs/InformationTab.kt:178 | the two labels differ |
| InformationTab.InformationTab.constructor | app/src/main/java/com/example/homeassistant/ui/tabs/InformationTab.kt:68-80 | the tab starts with no dialog open and nothing pending |
| InformationTab.InformationTab.OpenAddSubscription | app/src/main/java/com/example/homeassistant/ui/tabs/InformationTab.kt:364 | the add-subscription button opens its dialog only |
| InformationTab.InformationTab.AddSubscription | app/src/main/java/com/example/homeassistant/ui/tabs/InformationTab.kt:495-498 | adding appends the subscription after the others and closes the dialog |
| InformationTab.InformationTab.DismissAddSubscription | app/src/main/java/com/example/homeassistant/ui/tabs/InformationTab.kt:495-498 | dismissing closes the add-subscription dialog only |
| InformationTab.InformationTab.RequestDeleteSubscription | app/src/main/java/com/example/homeassistant/ui/tabs/InformationTab.kt:423-425 | a delete button remembers that subscription's index and opens the confirmation |
| InformationTab.InformationTab.ConfirmDeleteSubscription | app/src/main/java/com/example/homeassistant/ui/tabs/InformationTab.kt:503-518 | confirming hands over the list without the pending subscription, then nothing is pending |
| InformationTab.InformationTab.DismissDeleteSubscription | app/src/main/java/com/example/homeassistant/ui/tabs/InformationTab.kt:503-518 | dismissing closes the confirmation with nothing pending |
| InformationTab.InformationTab.OpenAddShareholder | app/src/main/java/com/example/homeassistant/ui/tabs/InformationTab.kt:243 | the add-shareholder button opens its dialog only |
| InformationTab.InformationTab.AddShareholder | app/src/main/java/com/example/homeassistant/ui/tabs/InformationTab.kt:525-528 | adding appends the shareholder after the others and closes the dialog |
| InformationTab.InformationTab.DismissAddShareholder | app/src/main/java/com/example/homeassistant/ui/tabs/InformationTab.kt:525-528 | dismissing closes the add-shareholder dialog only |
| InformationTab.InformationTab.RequestEditShareholder | app/src/main/java/com/example/homeassistant/ui/tabs/InformationTab.kt:306-308 | an edit button opens the dialog on that shareholder |
| InformationTab.InformationTab.SaveShareholder | app/src/main/java/com/example/homeassistant/ui/tabs/InformationTab.kt:533-550 | saving replaces the first shareholder equal to the edited one; when none is equal nothing is handed over; the dialog closes |
| InformationTab.InformationTab.DismissEditShareholder | app/src/main/java/com/example/homeassistant/ui/tabs/InformationTab.kt:533-550 | dismissing closes the edit dialog and forgets the shareholder |
| InformationTab.InformationTab.RequestDeleteShareholder | app/src/main/java/com/example/homeassistant/ui/tabs/InformationTab.kt:319-321 | a delete button remembers that shareholder's index and opens the confirmation |
| InformationTab.InformationTab.ConfirmDeleteShareholder | app/src/main/java/com/example/homeassistant/ui/tabs/InformationTab.kt:554-569 | confirming hands over the list without the pending shareholder, then nothing is pending |
| InformationTab.InformationTab.DismissDeleteShareholder | app/src/main/java/com/example/homeassistant/ui/tabs/InformationTab.kt:554-569 | dismissing closes the confirmation with nothing pending |
| InformationTab.InformationTab.RequestDeleteProperty | app/src/main/java/com/example/homeassistant/ui/tabs/InformationTab.kt:442 | the delete-property button opens its confirmation |
| InformationTab.InformationTab.ConfirmDeleteProperty | app/src/main/java/com/example/homeassistant/ui/tabs/InformationTab.kt:573-585 | confirming hands the property to the delete callback and closes |
| InformationTab.InformationTab.DismissDeleteProperty | app/src/main/java/com/example/homeassistant/ui/tabs/InformationTab.kt:573-585 | dismissing closes the delete-property confirmation only |
| InformationTab.RemoveAppended | app/src/main/java/com/example/homeassistant/ui/tabs/InformationTab.kt:495-518 | deleting the subscription just added gives the list back |
| InformationTab.RemoveKeepsOthers | app/src/main/java/com/example/homeassistant/ui/tabs/InformationTab.kt:503-518 | deleting one entry keeps every other entry, in order |
| InformationTab.EditReplacesOne | app/src/main/java/com/example/homeassistant/ui/tabs/InformationTab.kt:533-550 | an edit that finds its shareholder keeps the list's length and exchanges one copy of it for the updated one |
| Summary.SummaryFilter | app/src/main/java/com/example/homeassistant/ui/tabs/SummaryTab.kt:60-85 | with no date set the summary filters on the current year, 1 January to 31 December; a date that is set is used as given; the currency is kept |
| Summary.DefaultRangeIsCurrentYear | app/src/main/java/com/example/homeassistant/ui/tabs/SummaryTab.kt:60-85 | with no date set, a bill passes exactly when paid in the current year and in the chosen currency, if any |
| Summary.SetRangeIsTabFilter | app/src/main/java/com/example/homeassistant/ui/tabs/SummaryTab.kt:60-85 | once a date is set, the summary filter is the bills tab's filter |
| Summary.OriginalSubscription | app/src/main/java/com/example/homeassistant/ui/tabs/SummaryTab.kt:125 | `find` gives null exactly when no subscription has the name, and otherwise the first that has it |
| Summary.SummaryEmptyText | app/src/main/java/com/example/homeassistant/ui/tabs/SummaryTab.kt:429-439 | an empty card says no bill matches exactly when its original subscription has bills, and otherwise "No bills recorded" |
| Summary.SharedNameMisreportsBills | app/src/main/java/com/example/homeassistant/ui/tabs/SummaryTab.kt:125 | as written, two subscriptions sharing a name make the second, billless one report that its bills are filtered out |
| Summary.CardEmptyTextFixed | app/src/main/java/com/example/homeassistant/ui/tabs/SummaryTab.kt:429-439 | with the card's own subscription as the original, the "match" text shows exactly when that subscription has bills |
| Summary.CardEmptyTextFixedMeans | app/src/main/java/com/example/homeassistant/ui/tabs/SummaryTab.kt:429-439 | for an empty card, the corrected text shows the "match" message exactly when the subscription has bills and none passes the summary filter |
| Summary.CardEmptyTextAgrees | app/src/main/java/com/example/homeassistant/ui/tabs/SummaryTab.kt:125 | when subscription names are unique, the code as written and the corrected text agree |
| Summary.Currencies | app/src/main/java/com/example/homeassistant/ui/tabs/SummaryTab.kt:144 | the groups are the currencies present, each once, in order of first appearance |
| Summary.TotalsByCurrency | app/src/main/java/com/example/homeassistant/ui/tabs/SummaryTab.kt:406-408 | one total per currency present, each the sum of that currency's amounts |
| Summary.SumSplit | app/src/main/java/com/example/homeassistant/ui/tabs/SummaryTab.kt:406-408 | the amounts add up to the USD total plus the LBP total |
| Summary.AbsentCurrency | app/src/main/java/com/example/homeassistant/ui/tabs/SummaryTab.kt:406-408 | a currency with no bill totals zero |
| Summary.AtMostTwoCurrencies | app/src/main/java/com/example/homeassistant/ui/tabs/SummaryTab.kt:144 | there are at most two groups |
| Summary.TotalsAddUp | app/src/main/java/com/example/homeassistant/ui/tabs/SummaryTab.kt:406-408 | the per-currency totals add up to the sum of all the amounts |
| Summary.BillUnderItsCurrency | app/src/main/java/com/example/homeassistant/ui/tabs/SummaryTab.kt:406-408 | every bill's currency has a total |
| Summary.SortedByDate | app/src/main/java/com/example/homeassistant/ui/tabs/SummaryTab.kt:176 | the chart's bills are the same bills, ordered oldest payment date first; bills paid on the same day keep their input order |
| Summary.ChartData | app/src/main/java/com/example/homeassistant/ui/tabs/SummaryTab.kt:181-190 | one point per bill in date order; each x is the day count from the earliest bill, never negative and never decreasing, with that bill's date and amount |
| Summary.ChartViewOf | app/src/main/java/com/example/homeassistant/ui/tabs/SummaryTab.kt:212-227 | two or more points draw a line, exactly one shows a single value with its amount, and none shows nothing |
| Summary.CurrencyGroupNonEmpty | app/src/main/java/com/example/homeassistant/ui/tabs/SummaryTab.kt:157-158 | every currency group holds at least one bill |
| Summary.CurrencyCharts | app/src/main/java/com/example/homeassistant/ui/tabs/SummaryTab.kt:144-227 | one chart per currency present, in order, each drawn from that currency's bills |
| Summary.ChartsNeverEmpty | app/src/main/java/com/example/homeassistant/ui/tabs/SummaryTab.kt:157-227 | no currency's chart is blank |
| EditScreen.InitialForm | app/src/main/java/com/example/homeassistant/ui/screens/PropertyEditScreen.kt:55-68 | a new property opens with empty fields and monthly rent; an edited one shows its own fields, with an absent renter shown empty |
| EditScreen.SavedProperty | app/src/main/java/com/example/homeassistant/ui/screens/PropertyEditScreen.kt:108-119 | the saved property keeps the edited id or takes the clock's text. The rent is the parsed text (0 when it does not parse). A blank renter becomes null. The code is null. The lists are the screen's |
| EditScreen.SaveUneditedKeepsProperty | app/src/main/java/com/example/homeassistant/ui/screens/PropertyEditScreen.kt:55-119 | saving an edited property without touching the form gives it back, when its rent prints and parses back and it has no code |
| EditScreen.NewPropertyIdIsDigits | app/src/main/java/com/example/homeassistant/ui/screens/PropertyEditScreen.kt:110 | a new property's id is the decimal digits of the clock reading |
| EditScreen.SaveNewFormIsNewProperty | app/src/main/java/com/example/homeassistant/ui/screens/PropertyEditScreen.kt:108-119 | saving a new property from a form with no renter and no children gives the property made from its required fields alone: the clock's id, name, address, parsed rent (0 when it does not parse) and duration |
| EditScreen.HasActiveFilters | app/src/main/java/com/example/homeassistant/ui/screens/PropertyEditScreen.kt:72 | a filter is active exactly when some part is set |
| EditScreen.BuildIndicator | app/src/main/java/com/example/homeassistant/ui/screens/PropertyEditScreen.kt:216-223 | the indicator loop builds the indicator text |
| EditScreen.IndicatorCounts | app/src/main/java/com/example/homeassistant/ui/screens/PropertyEditScreen.kt:216-223 | the indicator lists one part per set filter part, and lists some exactly when a filter is active |
| EditScreen.IndicatorAllThree | app/src/main/java/com/example/homeassistant/ui/screens/PropertyEditScreen.kt:216-223 | with all three set the text lists From, To and Currency, in that order, separated by commas |
| EditScreen.IndicatorCurrencyOnly | app/src/main/java/com/example/homeassistant/ui/screens/PropertyEditScreen.kt:216-223 | with only a currency set the text is "Active filters: Currency: " and its symbol |
| EditScreen.PropertyEditScreen.constructor | app/src/main/java/com/example/homeassistant/ui/screens/PropertyEditScreen.kt:55-68 | the screen opens on the first tab with the initial form, the property's lists, no dialog and no filter |
| EditScreen.PropertyEditScreen.Title | app/src/main/java/com/example/homeassistant/ui/screens/PropertyEditScreen.kt:74-75 | the title reads "Edit Property" exactly when a property is being edited, and "Add New Property" exactly when not |
| EditScreen.PropertyEditScreen.Save | app/src/main/java/com/example/homeassistant/ui/screens/PropertyEditScreen.kt:108-119 | the save button yields the property assembled from the current form and lists, keeping an edited property's id |
| EditScreen.PropertyEditScreen.Indicator | app/src/main/java/com/example/homeassistant/ui/screens/PropertyEditScreen.kt:216-223 | the indicator shows exactly on the bills and summary tabs while a filter is active, with the indicator text |
| EditScreen.PropertyEditScreen.SelectTab | app/src/main/java/com/example/homeassistant/ui/screens/PropertyEditScreen.kt:209 | a tab click selects that tab and changes nothing else |
| EditScreen.PropertyEditScreen.OnNameChange | app/src/main/java/com/example/homeassistant/ui/screens/PropertyEditScreen.kt:55-68 | typing a name changes the name field only |
| EditScreen.PropertyEditScreen.OnAddressChange | app/src/main/java/com/example/homeassistant/ui/screens/PropertyEditScreen.kt:55-68 | typing an address changes the address field only |
| EditScreen.PropertyEditScreen.OnRentPriceChange | app/src/main/java/com/example/homeassistant/ui/screens/PropertyEditScreen.kt:55-68 | typing a rent changes the rent field only |
| EditScreen.PropertyEditScreen.OnRentDurationChange | app/src/main/java/com/example/homeassistant/ui/screens/PropertyEditScreen.kt:55-68 | choosing a duration changes the duration only |
| EditScreen.PropertyEditScreen.OnRenterNameChange | app/src/main/java/com/example/homeassistant/ui/screens/PropertyEditScreen.kt:55-68 | typing a renter changes the renter field only |
| EditScreen.PropertyEditScreen.OnSubscriptionsChange | app/src/main/java/com/example/homeassistant/ui/screens/PropertyEditScreen.kt:254 | a tab handing over a subscription list replaces the screen's list only |
| EditScreen.PropertyEditScreen.OnShareholdersChange | app/src/main/java/com/example/homeassistant/ui/screens/PropertyEditScreen.kt:262 | a tab handing over a shareholder list replaces the screen's list only |
| EditScreen.PropertyEditScreen.OnShowGlobalAddBillDialogChange | app/src/main/java/com/example/homeassistant/ui/screens/PropertyEditScreen.kt:131-152 | the add-bill button and the dialog set the dialog flag only |
| EditScreen.PropertyEditScreen.OpenFilterDialog | app/src/main/java/com/example/homeassistant/ui/screens/PropertyEditScreen.kt:170-174 | the filter button opens the filter dialog only |
| EditScreen.PropertyEditScreen.ApplyFilters | app/src/main/java/com/example/homeassistant/ui/screens/PropertyEditScreen.kt:286-291 | applying sets the three filter parts and closes the dialog; the filter is then active exactly when some part was given |
| EditScreen.PropertyEditScreen.DismissFilterDialog | app/src/main/java/com/example/homeassistant/ui/screens/PropertyEditScreen.kt:285 | dismissing closes the filter dialog only |
| MockData.FormatShareholderAmount | lib/data.ts:150-156 | a percentage prints as its number and "%", an amount as "$" and its number, and which one is told by the first or last character |
| MockData.ShareholderAmountReadBack | lib/data.ts:150-156 | the digits of a printed non-negative amount read back as the amount |
| MockData.FormatRent | lib/data.ts:158-160 | the rent prints as "$" and the amount, followed by " / " and the duration when one is given and non-empty |
| MockData.FormatRentParts | lib/data.ts:158-160 | with a duration the text is the bare rent followed by " / " and the duration |
| MockData.SubscriptionTypeLabel | lib/data.ts:171-188 | with a translator the label is its translation of the type's key; without, "Main" or "Motor" |
| MockData.EnglishLabels | lib/data.ts:171-188 | the fallback label is the key capitalised, and the two labels differ |
| MockData.TotalIsMainPlusMotor | lib/data.ts:190-207 | the total of the amounts is the main total plus the motor total |
| MockData.SumWhereConcat | lib/data.ts:190-207 | totals over joined lists add up |
| MockData.CalculateTotalBills | lib/data.ts:190-207 | the loop computes the total, the main total and the motor total, and the total is main plus motor |
| MockData.GetHomeByName | lib/data.ts:146-148 | `find` gives no home exactly when none has the name, and otherwise the first that has it |
| MockData.EveryHomeFound | lib/data.ts:146-148 | with unique names every home is found by its own name |
| MockData.PadStart | lib/data.ts:36-38 | a short text is padded on the left to the width with the fill character; a long one is kept |
| MockData.DateTextIsIso | lib/data.ts:36-38 | each generated date is the ISO text of a valid date in 2025 |
| MockData.DrawBounds | lib/data.ts:37-40 | a random draw scaled by n lies in 0 to n - 1 |
| MockData.MonthBills | lib/data.ts:35-58 | each month adds a main bill numbered startId + 2i, followed in even months by a motor bill |
| MockData.ForLoopBills | lib/data.ts:35-58 | n months give one main bill each and a motor bill in every even-indexed month, n + (n + 1) / 2 bills in all |
| MockData.TopUp | lib/data.ts:61-73 | the top-up loop brings the list to at least twelve bills and leaves a list of twelve or more alone |
| MockData.MonthlyBills | lib/data.ts:32-75 | the generator returns exactly twelve bills |
| MockData.GenerateMonthlyBills | lib/data.ts:32-75 | the two loops and the slice compute the generated bill list |
| MockData.TopUpBills | lib/data.ts:61-73 | the `while` loop computes the top-up |
| MockData.ForLoopPrefix | lib/data.ts:35-58 | the bills of the first m months start the bills of n months |
| MockData.MonthlyBillsAreFirstEightMonths | lib/data.ts:32-75 | the twelve bills returned are those of months 1 to 8; the top-up never runs |
| MockData.ForLoopShape | lib/data.ts:35-58 | every bill falls in a generated month on day 1 to 28; main amounts are 50 to 149 and motor amounts 10 to 39 |
| MockData.MonthlyBillsShape | lib/data.ts:32-75 | every returned bill is in months 1 to 8 with the amount bounds above |
| MockData.MainBillAt | lib/data.ts:43 | month i's main bill is numbered startId + 2i |
| MockData.MockBillIdsCollide | lib/data.ts:99 | as written, the tenth bill of the first home and the first bill of the second home are both "bill-13" |
| MockData.MonthlyBillsNumbered | lib/data.ts:43 | the corrected generator numbers the twelve bills consecutively from the start id, keeping everything else |
| MockData.BillIdInjective | lib/data.ts:43 | different numbers give different bill ids |
| MockData.NumberedIdsDisjoint | lib/data.ts:89-99 | with start ids twelve apart, two homes' corrected bills share no id |

## Left out

- **Flows, coroutines and threads.** Every `Flow` query is modelled as its current value, and every `suspend` call as a step on the database value. Observers that are re-notified are not modelled, nor is concurrent access.
- **The database singleton.** `getDatabase`, with its `@Volatile` and `synchronized` double-checked creation, is left out; the model starts from one database object.
- **Cascade on `INSERT OR REPLACE`.** SQLite runs a foreign key's delete actions for the rows `REPLACE` removes whenever foreign keys are enforced, and Room enforces them; so in the app, `REPLACE` on a stored property deletes that row's children, which is the `replaceCascades = true` branch. The model keeps this as the parameter `replaceCascades` and proves the other branch as well, for a database opened without foreign-key enforcement.
- **Sort ties.** Bills with the same payment date leave `ORDER BY paymentDate DESC` in an order SQL does not fix. The model uses a stable sort in table order.
- **Java date edge cases.** Dates are proleptic Gregorian (year, month, day). The parse accepts exactly the texts `LocalDate.toString` writes; Java's other accepted year spellings are not modelled. The ordering lemmas are stated for four-digit years.
- **Amounts are reals.** Rent, bill amounts and shareholder values are reals, not `Double`. Floating-point rounding in sums is not modelled, and nor is `String.format("%.2f")`.
- **Parameters.** Number parsing (`toDoubleOrNull`) and printing (`toString`) are parameters, as are display date formatting and the translator of the web helpers.
- **Clock and randomness.** `LocalDate.now().year`, `System.currentTimeMillis()` and `Math.random` are parameters.
- **Case folding.** `lowercase`, `uppercase` and `ignoreCase` fold ASCII letters only.
- **electricityCodeNumber.** `electricityCodeNumber` is not a field of the `Property` class in `data/models.kt`, yet the entity, the mappers and the list screen's search use it. The model gives `Property` an optional code. The edit screen does not pass one when it saves, so its save gives null.
- **UI preconditions.** Some callbacks assume their target exists; the requires say so. The edit dialog, and a delete confirmation that reads its target's bills or name, are only composed while their index points into the list. Crashes for out-of-range indices are not modelled.
- **Rendering.** Compose layout, colours, icons and the chart canvas are not modelled, and nor are the date pickers and dropdowns. Texts are modelled only where the code chooses between them.
- **Message texts.** The "Total Bills" count text and the delete-subscription message text are not modelled.
- **Web helpers.** The `homes` literal in `lib/data.ts` is not modelled; its generator calls and start ids appear in the finding below. `formatDate` is not modelled because it relies on `Intl` locale formatting. JavaScript numbers are modelled as integers.
- **Other UI files.** The view model, the navigation and the cards are not part of this model. The same goes for the bill item, the filter dialog's own layout, the theme and the activity.
- Reads.LoadSubscriptions: its own contract states only the count; what the rows load as is stated by ReadBack.LoadAppended and ReadBack.AppendedLoads.
- Reads.LoadShareholders: its own contract states only the count; the decoded contents are stated by ReadBack.ShareholderRowsDecode and ReadBack.AppendedLoads.
- Effects.InsertFullProperty: its own contract states only that the property row is stored; the whole new state is stated by Effects.InsertFullPropertyAppends.
- Effects.UpdateFullProperty: its own contract states only the row update; the whole new state is stated by Effects.UpdateFullPropertyReplaces and Effects.UpdateFullPropertyMissing.

## Findings

| source | as written | input that shows it | evidently intended | confidence | as-written member | corrected member |
|---|---|---|---|---|---|---|
| app/src/main/java/com/example/homeassistant/ui/tabs/SummaryTab.kt:125 | a summary card finds its original subscription by name, with `find` | two subscriptions named "main", the first with a bill and the second with none: the second card says "No bills match the current filter" | each card compares with its own subscription, so a subscription with no bills says "No bills recorded" | not executed | Summary.SharedNameMisreportsBills | Summary.CardEmptyTextFixed |
| lib/data.ts:99 | consecutive homes start twelve apart, but a home's bills are numbered `startId + i * 2` over eight months | `generateMonthlyBills(…, 1)` returns "bill-13" as its tenth bill, and `generateMonthlyBills(…, 13)` returns it as its first | each home's twelve bills use the twelve ids from its start id, so homes share no id | not executed | MockData.MockBillIdsCollide | MockData.NumberedIdsDisjoint |
