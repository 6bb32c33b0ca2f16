/** The add-shareholder dialog: a name, a share type and, per type, the
    text of a percentage or of an amount in a chosen currency. Its confirm
    button emits a shareholder only for a non-blank name and a positive
    number of the selected type; otherwise it does nothing. */
module ShareholderDialog {
  import opened Wrappers
  import opened Domain
  import opened Text

  datatype ShareType = PERCENTAGE | CURRENCY

  /** The fields the dialog remembers. */
  datatype ShareholderForm = ShareholderForm(
    name: string,
    shareType: ShareType,
    percentageValue: string,
    currencyAmount: string,
    selectedCurrency: Currency)

  /** The dialog opens empty, on a percentage, with dollars selected. */
  function InitialForm(): (f: ShareholderForm)
    ensures f.name == "" && f.percentageValue == "" && f.currencyAmount == ""
    ensures f.shareType == PERCENTAGE && f.selectedCurrency == USD
  {
    ShareholderForm("", PERCENTAGE, "", "", USD)
  }

  /** The number a share value carries. */
  function ShareNumber(v: ShareValue): real
  {
    match v
    case Percentage(p) => p
    case CurrencyValue(a, _) => a
  }

  /** The confirm button; `parse` stands for `toDoubleOrNull`. */
  function Confirm(f: ShareholderForm, parse: string -> Option<real>): (r: Option<Shareholder>)
    ensures IsBlank(f.name) ==> r.None?
    ensures r.Some? ==> r.value.name == f.name
    ensures f.shareType == PERCENTAGE ==>
      (r.Some? <==> !IsBlank(f.name) && parse(f.percentageValue).Some? && parse(f.percentageValue).value > 0.0)
    ensures f.shareType == PERCENTAGE && r.Some? ==>
      r.value.shareValue == Percentage(parse(f.percentageValue).value)
    ensures f.shareType == CURRENCY ==>
      (r.Some? <==> !IsBlank(f.name) && parse(f.currencyAmount).Some? && parse(f.currencyAmount).value > 0.0)
    ensures f.shareType == CURRENCY && r.Some? ==>
      r.value.shareValue == CurrencyValue(parse(f.currencyAmount).value, f.selectedCurrency)
  {
    if IsBlank(f.name) then None
    else
      var value :=
        match f.shareType
        case PERCENTAGE =>
          var p := parse(f.percentageValue);
          if p.Some? && p.value > 0.0 then Some(Percentage(p.value)) else None
        case CURRENCY =>
          var a := parse(f.currencyAmount);
          if a.Some? && a.value > 0.0 then Some(CurrencyValue(a.value, f.selectedCurrency)) else None;
      if value.Some? then Some(Shareholder(f.name, value.value)) else None
  }

  /** What the dialog emits is always well formed: a non-blank name, a
      positive share, and the variant of the selected type. */
  lemma ConfirmedIsValid(f: ShareholderForm, parse: string -> Option<real>)
    requires Confirm(f, parse).Some?
    ensures var h := Confirm(f, parse).value;
      !IsBlank(h.name) && ShareNumber(h.shareValue) > 0.0
      && (h.shareValue.Percentage? <==> f.shareType == PERCENTAGE)
  {
  }

  /** The text of the field not selected plays no part. */
  lemma OtherFieldIgnored(f: ShareholderForm, text: string, parse: string -> Option<real>)
    ensures f.shareType == PERCENTAGE ==> Confirm(f.(currencyAmount := text), parse) == Confirm(f, parse)
    ensures f.shareType == CURRENCY ==> Confirm(f.(percentageValue := text), parse) == Confirm(f, parse)
  {
  }

  /** A form filled in from a shareholder, its number written by `show`. */
  function FormFor(h: Shareholder, show: real -> string): ShareholderForm
  {
    match h.shareValue
    case Percentage(p) => ShareholderForm(h.name, PERCENTAGE, show(p), "", USD)
    case CurrencyValue(a, c) => ShareholderForm(h.name, CURRENCY, "", show(a), c)
  }

  /** Every shareholder with a non-blank name and a positive share can be
      entered: filling the form in from it emits it again, as long as a
      number written out parses back to itself. */
  lemma EveryValidShareholderEnterable(h: Shareholder, show: real -> string, parse: string -> Option<real>)
    requires !IsBlank(h.name) && ShareNumber(h.shareValue) > 0.0
    requires forall x :: parse(show(x)) == Some(x)
    ensures Confirm(FormFor(h, show), parse) == Some(h)
  {
    match h.shareValue
    case Percentage(p) => assert parse(show(p)) == Some(p);
    case CurrencyValue(a, c) => assert parse(show(a)) == Some(a);
  }
}
