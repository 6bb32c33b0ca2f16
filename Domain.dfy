/** The domain value types of the property manager: a property with its
    electricity subscriptions, their bills, and its shareholders. */
module Domain {
  import opened Wrappers
  import opened Calendar

  /** The two currencies, each with its display symbol. */
  datatype Currency = USD | LBP

  function Symbol(c: Currency): string
  {
    match c
    case USD => "$"
    case LBP => "L.L."
  }

  /** `Currency.toString` is the symbol; the two symbols differ, so the
      rendering identifies the currency. */
  function CurrencyToString(c: Currency): (s: string)
    ensures s == Symbol(c)
    ensures c == USD <==> s == "$"
    ensures c == LBP <==> s == "L.L."
  {
    Symbol(c)
  }

  datatype RentDuration = MONTHLY | YEARLY

  /** A shareholder's share: a percentage or a fixed amount in a currency.
      A tagged union, so a percentage can never carry a currency. */
  datatype ShareValue =
    | Percentage(value: real)
    | CurrencyValue(amount: real, currency: Currency)

  /** `ShareValue.toString`; `show` stands for Kotlin's Double-to-string. */
  function ShareValueToString(v: ShareValue, show: real -> string): (s: string)
    ensures v.Percentage? ==> s == show(v.value) + "%"
    ensures v.CurrencyValue? ==> s == Symbol(v.currency) + show(v.amount)
  {
    match v
    case Percentage(p) => show(p) + "%"
    case CurrencyValue(a, c) => Symbol(c) + show(a)
  }

  /** With a number printer that never writes '%', a share's text ends in
      '%' exactly when it is a percentage, and drops back to the number's
      text on either reading. */
  lemma ShareValueTextTellsKind(v: ShareValue, show: real -> string)
    requires forall x :: '%' !in show(x)
    ensures var s := ShareValueToString(v, show);
      && s != []
      && (s[|s| - 1] == '%' <==> v.Percentage?)
      && (v.Percentage? ==> s[..|s| - 1] == show(v.value))
      && (v.CurrencyValue? ==> s[|Symbol(v.currency)|..] == show(v.amount))
  {
    var s := ShareValueToString(v, show);
    match v
    case Percentage(p) =>
      assert s[..|s| - 1] == show(p);
    case CurrencyValue(a, c) =>
      var t := show(a);
      assert s == Symbol(c) + t;
      if t == [] {
        assert s == Symbol(c);
      } else {
        assert s[|s| - 1] == t[|t| - 1] && t[|t| - 1] in t;
      }
      assert s[|Symbol(c)|..] == t;
  }

  /** For a printer that writes each number differently and never writes
      '%', '$' or 'L' (as a Double's digits, sign, point and exponent do
      not), no two shares print alike. */
  lemma ShareValueTextInjective(v: ShareValue, w: ShareValue, show: real -> string)
    requires forall x :: '%' !in show(x) && '$' !in show(x) && 'L' !in show(x)
    requires forall x, y :: show(x) == show(y) ==> x == y
    requires ShareValueToString(v, show) == ShareValueToString(w, show)
    ensures v == w
  {
    var s := ShareValueToString(v, show);
    ShareValueTextTellsKind(v, show);
    ShareValueTextTellsKind(w, show);
    match (v, w)
    case (CurrencyValue(a, c), CurrencyValue(b, d)) =>
      if c != d {
        SymbolLeads(c, show(a));
        SymbolLeads(d, show(b));
        assert false;
      }
    case _ =>
  }

  /** A currency amount's text starts with its symbol's first letter. */
  lemma SymbolLeads(c: Currency, t: string)
    ensures (Symbol(c) + t)[0] == if c == USD then '$' else 'L'
  {
  }

  datatype Shareholder = Shareholder(name: string, shareValue: ShareValue)

  datatype ElectricityBill = ElectricityBill(amount: real, currency: Currency, paymentDate: LocalDate)

  /** `name` is a free label such as "main" or "motor". */
  datatype Subscription = Subscription(name: string, electricityBills: seq<ElectricityBill>)

  datatype Property = Property(
    id: string,
    name: string,
    address: string,
    electricityCodeNumber: Option<string>,
    rentPrice: real,
    rentDuration: RentDuration,
    renterName: Option<string>,
    subscriptions: seq<Subscription>,
    shareholders: seq<Shareholder>)

  /** The `Property` constructor with its defaulted arguments left out. */
  function NewProperty(id: string, name: string, address: string, rentPrice: real, rentDuration: RentDuration): (p: Property)
    ensures p.id == id && p.name == name && p.address == address
    ensures p.rentPrice == rentPrice && p.rentDuration == rentDuration
    ensures p.renterName == None && p.electricityCodeNumber == None
    ensures p.subscriptions == [] && p.shareholders == []
  {
    Property(id, name, address, None, rentPrice, rentDuration, None, [], [])
  }

  /** The `Subscription` constructor with its defaulted bill list left out. */
  function NewSubscription(name: string): (s: Subscription)
    ensures s.name == name && s.electricityBills == []
  {
    Subscription(name, [])
  }
}
