/** The property edit screen: the form it fills in from the property being
    edited (or leaves empty for a new one), the property it assembles on
    save, the bill filter it hoists for the bills and summary tabs, and the
    "Active filters" indicator above them. `show` and `parse` stand for
    Kotlin's Double-to-string and `toDoubleOrNull`, `format` for the
    indicator's locale date formatter, `now` for the clock in milliseconds. */
module EditScreen {
  import opened Wrappers
  import opened Calendar
  import opened Domain
  import opened Digits
  import opened Text
  import opened BillFilters

  /** The screen's text fields and the duration radio buttons. */
  datatype Form = Form(name: string, address: string, rentPrice: string, rentDuration: RentDuration, renterName: string)

  /** Each field starts from the property, or empty (monthly) for a new one. */
  function InitialForm(property: Option<Property>, show: real -> string): (f: Form)
    ensures property.None? ==> f == Form("", "", "", MONTHLY, "")
    ensures property.Some? ==>
      var p := property.value;
      f.name == p.name && f.address == p.address && f.rentPrice == show(p.rentPrice)
      && f.rentDuration == p.rentDuration
      && f.renterName == (if p.renterName.Some? then p.renterName.value else "")
  {
    match property
    case None => Form("", "", "", MONTHLY, "")
    case Some(p) => Form(p.name, p.address, show(p.rentPrice), p.rentDuration,
                         if p.renterName.Some? then p.renterName.value else "")
  }

  /** The save button's property. An edited property keeps its id; a new one
      is named by the clock. An unparsable rent is 0; a blank renter name is
      absent. The electricity code number is not among the arguments, so it
      is absent. */
  function SavedProperty(property: Option<Property>, f: Form, subscriptions: seq<Subscription>,
                         shareholders: seq<Shareholder>, now: int, parse: string -> Option<real>): (p: Property)
    ensures p.id == if property.Some? then property.value.id else IntToString(now)
    ensures p.name == f.name && p.address == f.address && p.rentDuration == f.rentDuration
    ensures p.rentPrice == if parse(f.rentPrice).Some? then parse(f.rentPrice).value else 0.0
    ensures p.renterName.None? <==> IsBlank(f.renterName)
    ensures p.renterName.Some? ==> p.renterName.value == f.renterName
    ensures p.electricityCodeNumber.None?
    ensures p.subscriptions == subscriptions && p.shareholders == shareholders
  {
    Property(
      if property.Some? then property.value.id else IntToString(now),
      f.name, f.address, None,
      match parse(f.rentPrice) { case Some(x) => x case None => 0.0 },
      f.rentDuration,
      if IsBlank(f.renterName) then None else Some(f.renterName),
      subscriptions, shareholders)
  }

  /** Opening a property and saving it untouched gives the same property,
      as long as its rent text parses back, its renter name is not blank,
      and it has no electricity code number (which the save does not keep). */
  lemma SaveUneditedKeepsProperty(p: Property, show: real -> string, parse: string -> Option<real>, now: int)
    requires parse(show(p.rentPrice)) == Some(p.rentPrice)
    requires p.renterName.Some? ==> !IsBlank(p.renterName.value)
    requires p.electricityCodeNumber.None?
    ensures SavedProperty(Some(p), InitialForm(Some(p), show), p.subscriptions, p.shareholders, now, parse) == p
  {
    var f := InitialForm(Some(p), show);
    assert p.renterName.None? ==> IsBlank(f.renterName);
  }

  /** Saving a new, fresh form with no renter and no children builds the
      property from its required fields alone, named by the clock. */
  lemma SaveNewFormIsNewProperty(name: string, address: string, rentText: string, duration: RentDuration,
                                 now: int, parse: string -> Option<real>)
    ensures SavedProperty(None, Form(name, address, rentText, duration, ""), [], [], now, parse)
      == NewProperty(IntToString(now), name, address,
                     if parse(rentText).Some? then parse(rentText).value else 0.0, duration)
  {
    assert IsBlank("");
  }

  /** A new property's id is the clock's decimal digits. */
  lemma NewPropertyIdIsDigits(f: Form, subscriptions: seq<Subscription>, shareholders: seq<Shareholder>,
                              now: nat, parse: string -> Option<real>)
    ensures var id := SavedProperty(None, f, subscriptions, shareholders, now, parse).id;
      AllDigits(id) && DigitsToNat(id) == now
  {
    NatToDigitsDigits(now);
    NatToDigitsValue(now);
  }

  /** `hasActiveFilters`: some bound or the currency is set, that is, the
      filter is not the empty one. */
  function HasActiveFilters(f: BillFilter): (b: bool)
    ensures b <==> f.from.Some? || f.to.Some? || f.currency.Some?
    ensures b <==> f != NoFilter
  {
    f.from.Some? || f.to.Some? || f.currency.Some?
  }

  /** `joinToString(", ")`. */
  function JoinComma(parts: seq<string>): string
  {
    if parts == [] then ""
    else if |parts| == 1 then parts[0]
    else parts[0] + ", " + JoinComma(parts[1..])
  }

  /** The indicator's entries: the set filters, in the order From, To, Currency. */
  function IndicatorParts(f: BillFilter, format: LocalDate -> string): seq<string>
  {
    (if f.from.Some? then ["From: " + format(f.from.value)] else [])
    + (if f.to.Some? then ["To: " + format(f.to.value)] else [])
    + (if f.currency.Some? then ["Currency: " + Symbol(f.currency.value)] else [])
  }

  function IndicatorText(f: BillFilter, format: LocalDate -> string): string
  {
    "Active filters: " + JoinComma(IndicatorParts(f, format))
  }

  /** The indicator's `buildString`: a list grown by one `add` per set
      filter, then joined. */
  method BuildIndicator(f: BillFilter, format: LocalDate -> string) returns (s: string)
    ensures s == IndicatorText(f, format)
  {
    var filters: seq<string> := [];
    if f.from.Some? {
      filters := filters + ["From: " + format(f.from.value)];
    }
    if f.to.Some? {
      filters := filters + ["To: " + format(f.to.value)];
    }
    if f.currency.Some? {
      filters := filters + ["Currency: " + Symbol(f.currency.value)];
    }
    assert filters == IndicatorParts(f, format);
    s := "Active filters: " + JoinComma(filters);
  }

  /** One entry per set filter. */
  lemma IndicatorCounts(f: BillFilter, format: LocalDate -> string)
    ensures |IndicatorParts(f, format)| ==
      (if f.from.Some? then 1 else 0) + (if f.to.Some? then 1 else 0) + (if f.currency.Some? then 1 else 0)
    ensures IndicatorParts(f, format) != [] <==> HasActiveFilters(f)
  {
  }

  /** All three set: From, then To, then Currency, comma separated. */
  lemma IndicatorAllThree(a: LocalDate, b: LocalDate, c: Currency, format: LocalDate -> string)
    ensures IndicatorText(BillFilter(Some(a), Some(b), Some(c)), format)
      == "Active filters: From: " + format(a) + ", To: " + format(b) + ", Currency: " + Symbol(c)
  {
    var parts := IndicatorParts(BillFilter(Some(a), Some(b), Some(c)), format);
    assert parts == ["From: " + format(a), "To: " + format(b), "Currency: " + Symbol(c)];
    assert parts[1..][1..] == ["Currency: " + Symbol(c)];
    assert JoinComma(parts[1..]) == "To: " + format(b) + ", " + "Currency: " + Symbol(c);
    assert JoinComma(parts) == "From: " + format(a) + ", " + ("To: " + format(b) + ", " + "Currency: " + Symbol(c));
  }

  /** Only the currency set: just the currency's symbol. */
  lemma IndicatorCurrencyOnly(c: Currency, format: LocalDate -> string)
    ensures IndicatorText(BillFilter(None, None, Some(c)), format) == "Active filters: Currency: " + Symbol(c)
  {
    assert IndicatorParts(BillFilter(None, None, Some(c)), format) == ["Currency: " + Symbol(c)];
  }

  /** Everything the screen remembers, as one value. */
  datatype ScreenState = ScreenState(
    form: Form,
    subscriptions: seq<Subscription>,
    shareholders: seq<Shareholder>,
    selectedTabIndex: int,
    showGlobalAddBillDialog: bool,
    filter: BillFilter,
    showFilterDialog: bool)

  class PropertyEditScreen {
    const property: Option<Property>
    var name: string
    var address: string
    var rentPrice: string
    var rentDuration: RentDuration
    var renterName: string
    var subscriptions: seq<Subscription>
    var shareholders: seq<Shareholder>
    var selectedTabIndex: int
    var showGlobalAddBillDialog: bool
    var filterFromDate: Option<LocalDate>
    var filterToDate: Option<LocalDate>
    var filterCurrency: Option<Currency>
    var showFilterDialog: bool

    function Fields(): Form
      reads this
    {
      Form(name, address, rentPrice, rentDuration, renterName)
    }

    function Filter(): BillFilter
      reads this
    {
      BillFilter(filterFromDate, filterToDate, filterCurrency)
    }

    function State(): ScreenState
      reads this
    {
      ScreenState(Fields(), subscriptions, shareholders, selectedTabIndex, showGlobalAddBillDialog, Filter(), showFilterDialog)
    }

    /** The screen opens on the information tab, with the property's fields
        and lists (or empty ones), no filter and no dialog. */
    constructor (property: Option<Property>, show: real -> string)
      ensures this.property == property
      ensures Fields() == InitialForm(property, show)
      ensures subscriptions == (if property.Some? then property.value.subscriptions else [])
      ensures shareholders == (if property.Some? then property.value.shareholders else [])
      ensures selectedTabIndex == 0 && !showGlobalAddBillDialog && !showFilterDialog
      ensures Filter() == NoFilter && !HasActiveFilters(Filter())
    {
      this.property := property;
      var f := InitialForm(property, show);
      name := f.name;
      address := f.address;
      rentPrice := f.rentPrice;
      rentDuration := f.rentDuration;
      renterName := f.renterName;
      subscriptions := if property.Some? then property.value.subscriptions else [];
      shareholders := if property.Some? then property.value.shareholders else [];
      selectedTabIndex := 0;
      showGlobalAddBillDialog := false;
      filterFromDate := None;
      filterToDate := None;
      filterCurrency := None;
      showFilterDialog := false;
    }

    /** The top bar's title tells editing from adding. */
    function Title(): (t: string)
      reads this
      ensures property.Some? <==> t == "Edit Property"
      ensures property.None? <==> t == "Add New Property"
    {
      if property.Some? then "Edit Property" else "Add New Property"
    }

    /** The save button: the property assembled from the current fields. */
    method Save(now: int, parse: string -> Option<real>) returns (p: Property)
      ensures p == SavedProperty(property, Fields(), subscriptions, shareholders, now, parse)
      ensures property.Some? ==> p.id == property.value.id
    {
      p := SavedProperty(property, Fields(), subscriptions, shareholders, now, parse);
    }

    /** The indicator, shown on the bills and summary tabs while a filter is
        active. */
    method Indicator(format: LocalDate -> string) returns (s: Option<string>)
      ensures s.Some? <==> (selectedTabIndex == 1 || selectedTabIndex == 2) && Filter() != NoFilter
      ensures s.Some? ==> s.value == IndicatorText(Filter(), format)
    {
      s := None;
      if (selectedTabIndex == 1 || selectedTabIndex == 2) && HasActiveFilters(Filter()) {
        var text := BuildIndicator(Filter(), format);
        s := Some(text);
      }
    }

    method SelectTab(index: nat)
      modifies this
      ensures State() == old(State()).(selectedTabIndex := index)
    {
      selectedTabIndex := index;
    }

    // ---- the hoisted fields' callbacks ----

    method OnNameChange(x: string)
      modifies this
      ensures State() == old(State()).(form := old(Fields()).(name := x))
    {
      name := x;
    }

    method OnAddressChange(x: string)
      modifies this
      ensures State() == old(State()).(form := old(Fields()).(address := x))
    {
      address := x;
    }

    method OnRentPriceChange(x: string)
      modifies this
      ensures State() == old(State()).(form := old(Fields()).(rentPrice := x))
    {
      rentPrice := x;
    }

    method OnRentDurationChange(x: RentDuration)
      modifies this
      ensures State() == old(State()).(form := old(Fields()).(rentDuration := x))
    {
      rentDuration := x;
    }

    method OnRenterNameChange(x: string)
      modifies this
      ensures State() == old(State()).(form := old(Fields()).(renterName := x))
    {
      renterName := x;
    }

    method OnSubscriptionsChange(x: seq<Subscription>)
      modifies this
      ensures State() == old(State()).(subscriptions := x)
    {
      subscriptions := x;
    }

    method OnShareholdersChange(x: seq<Shareholder>)
      modifies this
      ensures State() == old(State()).(shareholders := x)
    {
      shareholders := x;
    }

    method OnShowGlobalAddBillDialogChange(x: bool)
      modifies this
      ensures State() == old(State()).(showGlobalAddBillDialog := x)
    {
      showGlobalAddBillDialog := x;
    }

    // ---- the filter dialog ----

    method OpenFilterDialog()
      modifies this
      ensures State() == old(State()).(showFilterDialog := true)
    {
      showFilterDialog := true;
    }

    /** `onApply`: all three filters replaced at once, the dialog closed. */
    method ApplyFilters(from: Option<LocalDate>, to: Option<LocalDate>, currency: Option<Currency>)
      modifies this
      ensures State() == old(State()).(filter := BillFilter(from, to, currency), showFilterDialog := false)
      ensures HasActiveFilters(Filter()) <==> from.Some? || to.Some? || currency.Some?
    {
      filterFromDate := from;
      filterToDate := to;
      filterCurrency := currency;
      showFilterDialog := false;
    }

    method DismissFilterDialog()
      modifies this
      ensures State() == old(State()).(showFilterDialog := false)
    {
      showFilterDialog := false;
    }
  }
}
