/** The Room type converters: `LocalDate` to and from its ISO-8601 extended
    calendar-date text (`DateTimeFormatter.ISO_LOCAL_DATE`), and the two enums
    to and from their names. Kotlin's nullable converters map null to null. */
module Converters {
  import opened Wrappers
  import opened Digits
  import opened Calendar
  import opened Domain

  /** What decoding a stored value can throw. */
  datatype DecodeError =
    | UnknownEnumName(name: string)        // `valueOf` on a name that is not a constant
    | MalformedDate(text: string)          // `LocalDate.parse` rejects the text
    | UnknownShareValueType(tag: string)   // the mapper's `else -> throw`
    | MissingCurrency                      // `currency!!` on a null column

  // ---- dates ----

  /** The year field of ISO_LOCAL_DATE: four digits for years 0..9999, a `+`
      and the digits above that, a `-` and at least four digits below zero. */
  function FormatYear(y: int): (s: string)
    ensures |s| >= 4
  {
    assert Pow10(4) == 10000;
    if 0 <= y <= 9999 then PadDigits(y, 4)
    else if y > 9999 then NatToDigitsLength(y, 4); "+" + NatToDigits(y)
    else if -y <= 9999 then "-" + PadDigits(-y, 4)
    else NatToDigitsLength(-y, 4); "-" + NatToDigits(-y)
  }

  function FormatIsoDate(d: LocalDate): (s: string)
    ensures |s| >= 10
  {
    FormatYear(d.year) + "-" + PadDigits(d.month, 2) + "-" + PadDigits(d.day, 2)
  }

  /** `fromLocalDate`. */
  function FromLocalDate(d: Option<LocalDate>): (s: Option<string>)
    ensures s.None? <==> d.None?
  {
    match d
    case None => None
    case Some(x) => Some(FormatIsoDate(x))
  }

  /** Reads the year field in exactly the spellings FormatYear produces. */
  function ParseYear(t: string): Option<int>
  {
    if |t| == 4 && AllDigits(t) then Some(DigitsToNat(t))
    else if |t| >= 6 && t[0] == '+' && AllDigits(t[1..]) && t[1] != '0' then Some(DigitsToNat(t[1..]))
    else if |t| >= 5 && t[0] == '-' && AllDigits(t[1..]) && (|t| == 5 || t[1] != '0') && DigitsToNat(t[1..]) > 0
    then Some(-(DigitsToNat(t[1..]) as int))
    else None
  }

  /** `LocalDate.parse(text, ISO_LOCAL_DATE)`: the year field, `-MM-DD`, and a
      date that exists in the calendar; anything else is a parse error. */
  function ParseIsoDate(text: string): (r: Result<LocalDate, DecodeError>)
    ensures r.Err? ==> r.error == MalformedDate(text)
  {
    if |text| < 10 then Err(MalformedDate(text))
    else
      var n := |text|;
      var mm, dd := text[n - 5..n - 3], text[n - 2..];
      if text[n - 6] != '-' || text[n - 3] != '-' || !AllDigits(mm) || !AllDigits(dd) then Err(MalformedDate(text))
      else match ParseYear(text[..n - 6])
        case None => Err(MalformedDate(text))
        case Some(y) =>
          var d := Date(y, DigitsToNat(mm), DigitsToNat(dd));
          if ValidDate(d) then Ok(d) else Err(MalformedDate(text))
  }

  /** `toLocalDate`. */
  function ToLocalDate(s: Option<string>): (r: Result<Option<LocalDate>, DecodeError>)
    ensures s.None? <==> r == Ok(None)
  {
    match s
    case None => Ok(None)
    case Some(t) =>
      match ParseIsoDate(t)
      case Ok(d) => Ok(Some(d))
      case Err(e) => Err(e)
  }

  lemma ParseFormatYear(y: int)
    requires MinYear <= y <= MaxYear
    ensures ParseYear(FormatYear(y)) == Some(y)
  {
    if 0 <= y <= 9999 {
      ParseFourDigitYear(y);
    } else if y > 9999 {
      ParsePlusYear(y);
    } else if -y <= 9999 {
      ParseNegativeFourDigitYear(-y);
    } else {
      ParseMinusYear(y);
    }
  }

  lemma ParsePlusYear(y: int)
    requires y > 9999
    ensures ParseYear(FormatYear(y)) == Some(y)
  {
    assert FormatYear(y) == ['+'] + NatToDigits(y);
    ParseSignedYear('+', y);
  }

  lemma ParseMinusYear(y: int)
    requires y < -9999
    ensures ParseYear(FormatYear(y)) == Some(y)
  {
    assert FormatYear(y) == ['-'] + NatToDigits(-y);
    ParseSignedYear('-', -y);
  }

  lemma ParseFourDigitYear(y: nat)
    requires y <= 9999
    ensures FormatYear(y) == PadDigits(y, 4)
    ensures ParseYear(PadDigits(y, 4)) == Some(y)
  {
    assert Pow10(4) == 10000;
    PadDigitsValue(y, 4);
  }

  lemma ParseNegativeFourDigitYear(n: nat)
    requires 0 < n <= 9999
    ensures FormatYear(-(n as int)) == "-" + PadDigits(n, 4)
    ensures ParseYear("-" + PadDigits(n, 4)) == Some(-(n as int))
  {
    assert Pow10(4) == 10000;
    PadDigitsValue(n, 4);
    var t := "-" + PadDigits(n, 4);
    assert t[1..] == PadDigits(n, 4);
  }

  /** A year with more than four digits, after its sign. */
  lemma ParseSignedYear(sign: char, n: nat)
    requires n > 9999 && (sign == '+' || sign == '-')
    ensures var t := [sign] + NatToDigits(n);
      ParseYear(t) == Some(if sign == '+' then n as int else -(n as int))
  {
    assert Pow10(4) == 10000;
    NatToDigitsLength(n, 4);
    NatToDigitsValue(n);
    var t := [sign] + NatToDigits(n);
    assert t[1..] == NatToDigits(n);
    assert t[0] == sign;
    assert |t| != 4;
  }

  /** Formatting then parsing gives the date back, for every LocalDate. */
  lemma DateRoundTrip(d: LocalDate)
    ensures ParseIsoDate(FormatIsoDate(d)) == Ok(d)
  {
    assert Pow10(2) == 100;
    PadDigitsValue(d.month, 2);
    PadDigitsValue(d.day, 2);
    ParseFormatYear(d.year);
    ParseIsoFields(FormatYear(d.year), PadDigits(d.month, 2), PadDigits(d.day, 2), d);
  }

  /** Text made of a year field that reads as `d.year` and two-digit fields
      that read as `d.month` and `d.day` parses as `d`. */
  lemma ParseIsoFields(yt: string, mm: string, dd: string, d: LocalDate)
    requires ParseYear(yt) == Some(d.year)
    requires |mm| == 2 && AllDigits(mm) && DigitsToNat(mm) == d.month
    requires |dd| == 2 && AllDigits(dd) && DigitsToNat(dd) == d.day
    ensures ParseIsoDate(yt + "-" + mm + "-" + dd) == Ok(d)
  {
    assert |yt| >= 4;
    IsoTextParts(yt, mm, dd);
  }

  /** Where the three fields sit in `year-MM-DD`. */
  lemma IsoTextParts(yt: string, mm: string, dd: string)
    requires |mm| == 2 && |dd| == 2
    ensures var s := yt + "-" + mm + "-" + dd; var n := |s|;
      && n == |yt| + 6 && s[..n - 6] == yt && s[n - 6] == '-' && s[n - 5..n - 3] == mm
      && s[n - 3] == '-' && s[n - 2..] == dd
  {
    var s := yt + "-" + mm + "-" + dd;
    var n := |s|;
    assert s[..n - 6] == yt;
    assert s[n - 5..n - 3] == mm;
    assert s[n - 2..] == dd;
  }

  /** The year field parses only in its canonical spelling. */
  lemma FormatParsedYear(t: string)
    requires ParseYear(t).Some?
    ensures FormatYear(ParseYear(t).value) == t
  {
    if |t| == 4 && AllDigits(t) {
      FormatParsedFourDigits(t);
    } else {
      var u := t[1..];
      assert t == [t[0]] + u;
      if |t| == 5 {
        FormatParsedNegativeFourDigits(u);
      } else {
        var n := DigitsToNat(u);
        LongDigitsValue(u);
        NatToDigitsOfValue(u);
        FormatLargeYear(n);
      }
    }
  }

  lemma FormatParsedFourDigits(t: string)
    requires |t| == 4 && AllDigits(t)
    ensures FormatYear(DigitsToNat(t)) == t
  {
    assert Pow10(4) == 10000;
    DigitsToNatBound(t);
    PadDigitsOfValue(t);
  }

  lemma FormatParsedNegativeFourDigits(u: string)
    requires |u| == 4 && AllDigits(u) && DigitsToNat(u) > 0
    ensures FormatYear(-(DigitsToNat(u) as int)) == "-" + u
  {
    assert Pow10(4) == 10000;
    DigitsToNatBound(u);
    PadDigitsOfValue(u);
    ParseNegativeFourDigitYear(DigitsToNat(u));
  }

  lemma FormatLargeYear(n: nat)
    requires n > 9999
    ensures FormatYear(n) == "+" + NatToDigits(n)
    ensures FormatYear(-(n as int)) == "-" + NatToDigits(n)
  {
  }

  /** Five or more digits without a leading zero spell a number above 9999. */
  lemma LongDigitsValue(u: string)
    requires |u| >= 5 && AllDigits(u) && u[0] != '0'
    ensures DigitsToNat(u) > 9999
  {
    assert Pow10(4) == 10000;
    DigitsToNatLeading(u);
    Pow10Monotone(4, |u| - 1);
  }

  lemma {:induction false} Pow10Monotone(j: nat, k: nat)
    requires j <= k
    ensures Pow10(j) <= Pow10(k)
    decreases k - j
  {
    if j < k { Pow10Monotone(j, k - 1); }
  }

  /** A text that parses is the formatting of its date: the parser accepts
      only canonical spellings, so a stored date round-trips as text too. */
  lemma ParsedDateFormats(text: string)
    requires ParseIsoDate(text).Ok?
    ensures FormatIsoDate(ParseIsoDate(text).value) == text
  {
    var n := |text|;
    var yt, mm, dd := text[..n - 6], text[n - 5..n - 3], text[n - 2..];
    var d := ParseIsoDate(text).value;
    assert d == Date(ParseYear(yt).value, DigitsToNat(mm), DigitsToNat(dd));
    FormatParsedYear(yt);
    PadDigitsOfValue(mm);
    PadDigitsOfValue(dd);
    IsoTextSplit(text);
  }

  lemma IsoTextSplit(text: string)
    requires |text| >= 10 && text[|text| - 6] == '-' && text[|text| - 3] == '-'
    ensures var n := |text|;
      text == text[..n - 6] + "-" + text[n - 5..n - 3] + "-" + text[n - 2..]
  {
  }

  lemma LocalDateConvertersRoundTrip(d: Option<LocalDate>)
    ensures ToLocalDate(FromLocalDate(d)) == Ok(d)
  {
    if d.Some? { DateRoundTrip(d.value); }
  }

  predicate FourDigitYear(d: Date) { 0 <= d.year <= 9999 }

  /** For years 0..9999 the text is `YYYY-MM-DD`: ten characters, dashes at
      positions 4 and 7, zero-padded digit fields holding year, month, day. */
  lemma IsoDateShape(d: LocalDate)
    requires FourDigitYear(d)
    ensures var s := FormatIsoDate(d);
      && |s| == 10 && s[4] == '-' && s[7] == '-'
      && AllDigits(s[..4]) && AllDigits(s[5..7]) && AllDigits(s[8..])
      && DigitsToNat(s[..4]) == d.year && DigitsToNat(s[5..7]) == d.month && DigitsToNat(s[8..]) == d.day
  {
    var s := FormatIsoDate(d);
    assert s[..4] == PadDigits(d.year, 4);
    assert s[5..7] == PadDigits(d.month, 2);
    assert s[8..] == PadDigits(d.day, 2);
    assert Pow10(4) == 10000 && Pow10(2) == 100;
    PadDigitsValue(d.year, 4);
    PadDigitsValue(d.month, 2);
    PadDigitsValue(d.day, 2);
  }

  /** For years 0..9999, comparing the stored texts (SQLite's text order,
      used by `ORDER BY paymentDate`) agrees with chronological order. */
  lemma IsoTextOrder(a: LocalDate, b: LocalDate)
    requires FourDigitYear(a) && FourDigitYear(b)
    ensures StrLess(FormatIsoDate(a), FormatIsoDate(b)) <==> IsBefore(a, b)
    ensures FormatIsoDate(a) == FormatIsoDate(b) <==> a == b
  {
    assert Pow10(4) == 10000 && Pow10(2) == 100;
    PadDigitsOrder(a.year, b.year, 4);
    PadDigitsOrder(a.month, b.month, 2);
    PadDigitsOrder(a.day, b.day, 2);
    FieldsOrder(PadDigits(a.year, 4), PadDigits(a.month, 2), PadDigits(a.day, 2),
                PadDigits(b.year, 4), PadDigits(b.month, 2), PadDigits(b.day, 2));
  }

  /** Texts `y-m-d` whose fields have equal widths compare field by field. */
  lemma FieldsOrder(ya: string, ma: string, da: string, yb: string, mb: string, db: string)
    requires |ya| == |yb| && |ma| == |mb|
    ensures StrLess(ya + "-" + ma + "-" + da, yb + "-" + mb + "-" + db)
      <==> StrLess(ya, yb) || (ya == yb && (StrLess(ma, mb) || (ma == mb && StrLess(da, db))))
    ensures ya + "-" + ma + "-" + da == yb + "-" + mb + "-" + db <==> ya == yb && ma == mb && da == db
  {
    SepOrder(ya, ma, yb, mb);
    SepOrder(ya + "-" + ma, da, yb + "-" + mb, db);
  }

  /** Texts `x-y` whose first fields have equal widths compare the first
      fields, then the second. */
  lemma SepOrder(a1: string, a2: string, b1: string, b2: string)
    requires |a1| == |b1|
    ensures StrLess(a1 + "-" + a2, b1 + "-" + b2) <==> StrLess(a1, b1) || (a1 == b1 && StrLess(a2, b2))
    ensures a1 + "-" + a2 == b1 + "-" + b2 <==> a1 == b1 && a2 == b2
  {
    StrLessConcat(a1 + "-", a2, b1 + "-", b2);
    StrLessConcat(a1, "-", b1, "-");
    StrLessIrreflexive("-");
    if a1 + "-" == b1 + "-" {
      assert a1 == (a1 + "-")[..|a1|] && b1 == (b1 + "-")[..|b1|];
    }
    var sa, sb := a1 + "-" + a2, b1 + "-" + b2;
    if sa == sb {
      assert a1 == sa[..|a1|] && b1 == sb[..|b1|];
      assert a2 == sa[|a1| + 1..] && b2 == sb[|b1| + 1..];
    }
  }

  // ---- enums ----

  /** `Currency.name`. */
  function CurrencyName(c: Currency): (s: string)
    ensures s == "USD" || s == "LBP"
  {
    match c
    case USD => "USD"
    case LBP => "LBP"
  }

  /** `Currency.valueOf`: a constant's exact name, otherwise it throws. */
  function CurrencyValueOf(s: string): (r: Result<Currency, DecodeError>)
    ensures r.Ok? <==> s == "USD" || s == "LBP"
    ensures r.Ok? ==> CurrencyName(r.value) == s
    ensures r.Err? ==> r.error == UnknownEnumName(s)
  {
    if s == "USD" then Ok(USD) else if s == "LBP" then Ok(LBP) else Err(UnknownEnumName(s))
  }

  lemma CurrencyRoundTrip(c: Currency)
    ensures CurrencyValueOf(CurrencyName(c)) == Ok(c)
  {
  }

  /** `fromCurrency`. */
  function FromCurrency(c: Option<Currency>): (s: Option<string>)
    ensures s.None? <==> c.None?
    ensures s.Some? ==> s.value == "USD" || s.value == "LBP"
  {
    match c
    case None => None
    case Some(x) => Some(CurrencyName(x))
  }

  /** `toCurrency`. */
  function ToCurrency(s: Option<string>): (r: Result<Option<Currency>, DecodeError>)
    ensures s.None? <==> r == Ok(None)
    ensures r.Err? <==> s.Some? && s.value != "USD" && s.value != "LBP"
  {
    match s
    case None => Ok(None)
    case Some(t) =>
      match CurrencyValueOf(t)
      case Ok(c) => Ok(Some(c))
      case Err(e) => Err(e)
  }

  lemma CurrencyConvertersRoundTrip(c: Option<Currency>)
    ensures ToCurrency(FromCurrency(c)) == Ok(c)
  {
  }

  /** `RentDuration.name`. */
  function RentDurationName(r: RentDuration): (s: string)
    ensures s == "MONTHLY" || s == "YEARLY"
  {
    match r
    case MONTHLY => "MONTHLY"
    case YEARLY => "YEARLY"
  }

  /** `RentDuration.valueOf`. */
  function RentDurationValueOf(s: string): (r: Result<RentDuration, DecodeError>)
    ensures r.Ok? <==> s == "MONTHLY" || s == "YEARLY"
    ensures r.Ok? ==> RentDurationName(r.value) == s
    ensures r.Err? ==> r.error == UnknownEnumName(s)
  {
    if s == "MONTHLY" then Ok(MONTHLY) else if s == "YEARLY" then Ok(YEARLY) else Err(UnknownEnumName(s))
  }

  lemma RentDurationRoundTrip(r: RentDuration)
    ensures RentDurationValueOf(RentDurationName(r)) == Ok(r)
  {
  }

  /** `fromRentDuration`. */
  function FromRentDuration(r: Option<RentDuration>): (s: Option<string>)
    ensures s.None? <==> r.None?
    ensures s.Some? ==> s.value == "MONTHLY" || s.value == "YEARLY"
  {
    match r
    case None => None
    case Some(x) => Some(RentDurationName(x))
  }

  /** `toRentDuration`. */
  function ToRentDuration(s: Option<string>): (r: Result<Option<RentDuration>, DecodeError>)
    ensures s.None? <==> r == Ok(None)
    ensures r.Err? <==> s.Some? && s.value != "MONTHLY" && s.value != "YEARLY"
  {
    match s
    case None => Ok(None)
    case Some(t) =>
      match RentDurationValueOf(t)
      case Ok(x) => Ok(Some(x))
      case Err(e) => Err(e)
  }

  lemma RentDurationConvertersRoundTrip(r: Option<RentDuration>)
    ensures ToRentDuration(FromRentDuration(r)) == Ok(r)
  {
  }
}
