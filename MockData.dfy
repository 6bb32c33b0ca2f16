/** The web front end's mock-data helpers: amount and rent formatting, the
    subscription-type labels, the totals over a home's bills, the lookup of
    a home by name, and the generator of a home's twelve 2025 bills. Amounts
    are whole numbers here, so a number prints as its decimal digits. Each
    `Math.random()` call is the next value of `random`, numbered from 0 in
    call order. */
module MockData {
  import opened Wrappers
  import opened Calendar
  import opened Digits
  import opened Converters
  import opened Tables
  import opened Text

  datatype SubscriptionType = Main | Motor

  /** The type's string value, `'main'` or `'motor'`. */
  function TypeName(t: SubscriptionType): string
  {
    match t
    case Main => "main"
    case Motor => "motor"
  }

  datatype RentDuration = Monthly | Yearly

  datatype Shareholder = Shareholder(name: string, amount: int, isPercentage: bool)

  datatype ElectricityBill = ElectricityBill(
    id: string, subscriptionType: SubscriptionType, amount: int, date: string, notes: Option<string>)

  datatype Home = Home(
    name: string, address: string, tenant: string, rent: int, rentDuration: RentDuration,
    electricityCode: string, shareholders: seq<Shareholder>, electricityBills: seq<ElectricityBill>)

  // ---- formatting ----

  lemma IntToStringEndsInDigit(i: int)
    ensures IsDigit(IntToString(i)[|IntToString(i)| - 1])
  {
    var n := if i < 0 then -i else i;
    NatToDigitsDigits(n);
    var d := NatToDigits(n);
    assert IntToString(i)[|IntToString(i)| - 1] == d[|d| - 1];
  }

  /** `formatShareholderAmount`: a percentage is the amount then `%`, a
      fixed amount is `$` then the amount. */
  function FormatShareholderAmount(s: Shareholder): (r: string)
    ensures |r| >= 2
    ensures s.isPercentage <==> r[|r| - 1] == '%'
    ensures !s.isPercentage <==> r[0] == '$'
    ensures r[0] == '$' ==> r[1..] == IntToString(s.amount)
    ensures r[|r| - 1] == '%' ==> r[..|r| - 1] == IntToString(s.amount)
  {
    IntToStringEndsInDigit(s.amount);
    if s.isPercentage then IntToString(s.amount) + "%" else "$" + IntToString(s.amount)
  }

  /** A non-negative amount can be read back from its text. */
  lemma ShareholderAmountReadBack(s: Shareholder)
    requires s.amount >= 0
    ensures var r := FormatShareholderAmount(s);
      var digits := if s.isPercentage then r[..|r| - 1] else r[1..];
      AllDigits(digits) && DigitsToNat(digits) == s.amount
  {
    NatToDigitsValue(s.amount);
  }

  /** `formatRent`: the duration, when given and not empty (JavaScript's
      truthiness), follows the amount after a slash. */
  function FormatRent(rent: int, duration: Option<string>): (r: string)
    ensures duration.Some? && duration.value != "" ==> r == "$" + IntToString(rent) + " / " + duration.value
    ensures duration.None? || duration.value == "" ==> r == "$" + IntToString(rent)
  {
    if duration.Some? && duration.value != "" then "$" + IntToString(rent) + " / " + duration.value
    else "$" + IntToString(rent)
  }

  /** With a duration the text is the bare rent, then " / ", then the
      duration; an empty duration is the same as none. */
  lemma FormatRentParts(rent: int, d: string)
    requires d != ""
    ensures var bare := FormatRent(rent, None); var r := FormatRent(rent, Some(d));
      |r| == |bare| + 3 + |d| && r[..|bare|] == bare && r[|bare|..] == " / " + d
    ensures FormatRent(rent, Some("")) == FormatRent(rent, None)
  {
    var bare := FormatRent(rent, None);
    var r := FormatRent(rent, Some(d));
    assert r == bare + (" / " + d);
  }

  /** `getSubscriptionTypeLabel`: the translation of the type's value when
      a translator is given, else its English name. */
  function SubscriptionTypeLabel(t: SubscriptionType, translate: Option<string -> string>): (r: string)
    ensures translate.Some? ==> r == translate.value(TypeName(t))
    ensures translate.None? && t == Main ==> r == "Main"
    ensures translate.None? && t == Motor ==> r == "Motor"
  {
    if translate.Some? then translate.value(TypeName(t))
    else match t
      case Main => "Main"
      case Motor => "Motor"
  }

  /** The English labels are the values with a capital first letter, and
      they tell the two types apart. */
  lemma EnglishLabels(t: SubscriptionType)
    ensures SubscriptionTypeLabel(t, None) == CapitalizeFirst(TypeName(t))
    ensures SubscriptionTypeLabel(Main, None) != SubscriptionTypeLabel(Motor, None)
  {
  }

  // ---- totals ----

  /** The sum of the amounts of the bills `keep` accepts. */
  function SumWhere(bills: seq<ElectricityBill>, keep: ElectricityBill -> bool): int
  {
    if bills == [] then 0
    else SumWhere(bills[..|bills| - 1], keep) + (if keep(bills[|bills| - 1]) then bills[|bills| - 1].amount else 0)
  }

  function Any(): ElectricityBill -> bool { (b: ElectricityBill) => true }

  function OfType(t: SubscriptionType): ElectricityBill -> bool
  {
    (b: ElectricityBill) => b.subscriptionType == t
  }

  datatype Totals = Totals(total: int, main: int, motor: int)

  /** Every bill is main or motor, so the total is the two per-type sums. */
  lemma {:induction false} TotalIsMainPlusMotor(bills: seq<ElectricityBill>)
    ensures SumWhere(bills, Any()) == SumWhere(bills, OfType(Main)) + SumWhere(bills, OfType(Motor))
  {
    if bills != [] {
      TotalIsMainPlusMotor(bills[..|bills| - 1]);
    }
  }

  /** The sums of two runs of bills add up. */
  lemma {:induction false} SumWhereConcat(a: seq<ElectricityBill>, b: seq<ElectricityBill>, keep: ElectricityBill -> bool)
    ensures SumWhere(a + b, keep) == SumWhere(a, keep) + SumWhere(b, keep)
  {
    if b != [] {
      assert (a + b)[..|a + b| - 1] == a + b[..|b| - 1];
      SumWhereConcat(a, b[..|b| - 1], keep);
    } else {
      assert a + b == a;
    }
  }

  /** `calculateTotalBills`: the `reduce` adds each bill to the total and
      to its type's sum. */
  method CalculateTotalBills(bills: seq<ElectricityBill>) returns (acc: Totals)
    ensures acc.total == SumWhere(bills, Any())
    ensures acc.main == SumWhere(bills, OfType(Main))
    ensures acc.motor == SumWhere(bills, OfType(Motor))
    ensures acc.total == acc.main + acc.motor
  {
    acc := Totals(0, 0, 0);
    for i := 0 to |bills|
      invariant acc.total == SumWhere(bills[..i], Any())
      invariant acc.main == SumWhere(bills[..i], OfType(Main))
      invariant acc.motor == SumWhere(bills[..i], OfType(Motor))
    {
      var bill := bills[i];
      assert bills[..i + 1][..i] == bills[..i];
      acc := acc.(total := acc.total + bill.amount);
      if bill.subscriptionType == Main {
        acc := acc.(main := acc.main + bill.amount);
      } else if bill.subscriptionType == Motor {
        acc := acc.(motor := acc.motor + bill.amount);
      }
    }
    assert bills[..|bills|] == bills;
    TotalIsMainPlusMotor(bills);
  }

  // ---- lookup ----

  function HomeName(): Home -> string { (h: Home) => h.name }

  /** `getHomeByName`: the first home with that name, or none. */
  function GetHomeByName(homes: seq<Home>, name: string): (r: Option<Home>)
    ensures r.None? <==> forall i :: 0 <= i < |homes| ==> homes[i].name != name
    ensures r.Some? ==> exists i :: (0 <= i < |homes| && homes[i] == r.value && r.value.name == name
      && forall j :: 0 <= j < i ==> homes[j].name != name)
  {
    Find(homes, HomeName(), name)
  }

  /** With distinct names every home is found by its own name. */
  lemma EveryHomeFound(homes: seq<Home>, i: nat)
    requires UniqueKeys(homes, HomeName()) && i < |homes|
    ensures GetHomeByName(homes, homes[i].name) == Some(homes[i])
  {
    FindUnique(homes, HomeName(), i);
  }

  // ---- the bill generator ----

  /** `padStart(w, c)` with a one-character pad. */
  function PadStart(s: string, w: nat, c: char): (r: string)
    ensures |s| >= w ==> r == s
    ensures |s| < w ==> |r| == w && r[w - |s|..] == s && forall i :: 0 <= i < w - |s| ==> r[i] == c
  {
    if |s| >= w then s else seq(w - |s|, _ => c) + s
  }

  /** The template `${year}-${month}-${day}` with month and day padded to
      two digits. */
  function DateText(year: nat, month: int, day: int): string
  {
    NatToDigits(year) + "-" + PadStart(IntToString(month), 2, '0') + "-" + PadStart(IntToString(day), 2, '0')
  }

  lemma PadTwoDigits(n: nat)
    requires 1 <= n <= 99
    ensures PadStart(IntToString(n), 2, '0') == PadDigits(n, 2)
  {
    if n >= 10 {
      assert NatToDigits(n) == NatToDigits(n / 10) + [DigitChar(n % 10)];
    }
  }

  /** The generator's dates are the ISO dates the app's converter writes,
      and they are real calendar days. */
  lemma DateTextIsIso(month: int, day: int)
    requires 1 <= month <= 12 && 1 <= day <= 28
    ensures DateText(2025, month, day) == FormatIsoDate(Date(2025, month, day))
    ensures ValidDate(Date(2025, month, day))
  {
    PadTwoDigits(month);
    PadTwoDigits(day);
    YearText();
  }

  lemma YearText()
    ensures NatToDigits(2025) == FormatYear(2025)
  {
    assert NatToDigits(2025) == NatToDigits(202) + [DigitChar(5)];
    assert NatToDigits(202) == NatToDigits(20) + [DigitChar(2)];
    assert PadDigits(2025, 4) == PadDigits(202, 3) + [DigitChar(5)];
    assert PadDigits(202, 3) == PadDigits(20, 2) + [DigitChar(2)];
  }

  /** `Math.floor(Math.random() * n)` for the `k`-th call. */
  function Draw(random: nat -> real, k: nat, n: nat): int
  {
    (random(k) * n as real).Floor
  }

  lemma DrawBounds(random: nat -> real, k: nat, n: nat)
    requires 0.0 <= random(k) < 1.0 && n >= 1
    ensures 0 <= Draw(random, k, n) < n
  {
  }

  function BillId(n: int): string { "bill-" + IntToString(n) }

  const CheckedNote := "Checked for issues, all normal."

  /** The for loop's bills for month index `i` (0-based): a main bill, and
      a motor bill on even indices; both dated by the same drawn day. The
      iteration draws the day, the main amount and the motor amount. */
  function MonthBills(startId: int, random: nat -> real, i: nat): (r: seq<ElectricityBill>)
    ensures |r| == if i % 2 == 0 then 2 else 1
    ensures r[0].id == BillId(startId + i * 2) && r[0].subscriptionType == Main
  {
    var date := DateText(2025, i + 1, Draw(random, 3 * i, 28) + 1);
    [ElectricityBill(BillId(startId + i * 2), Main, Draw(random, 3 * i + 1, 100) + 50, date,
                     if i == 3 then Some(CheckedNote) else None)]
    + (if i % 2 == 0 then [ElectricityBill(BillId(startId + i * 2 + 1), Motor, Draw(random, 3 * i + 2, 30) + 10, date, None)]
       else [])
  }

  /** The bills after the for loop's first `n` iterations. */
  function ForLoopBills(startId: int, random: nat -> real, n: nat): (r: seq<ElectricityBill>)
    ensures |r| == n + (n + 1) / 2
  {
    if n == 0 then [] else ForLoopBills(startId, random, n - 1) + MonthBills(startId, random, n - 1)
  }

  /** The while loop: main bills with counted ids until there are twelve;
      each draws a day and an amount, starting at call `k`. */
  function TopUp(bills: seq<ElectricityBill>, counter: int, random: nat -> real, k: nat): (r: seq<ElectricityBill>)
    ensures |r| >= 12
    ensures |bills| >= 12 ==> r == bills
    decreases 12 - |bills|
  {
    if |bills| >= 12 then bills
    else
      var date := DateText(2025, |bills| % 12 + 1, Draw(random, k, 28) + 1);
      TopUp(bills + [ElectricityBill(BillId(counter), Main, Draw(random, k + 1, 100) + 50, date, None)],
            counter + 1, random, k + 2)
  }

  /** `generateMonthlyBills`: the for loop, the top-up, the first twelve. */
  function MonthlyBills(startId: int, random: nat -> real): (r: seq<ElectricityBill>)
    ensures |r| == 12
  {
    var bills := ForLoopBills(startId, random, 12);
    TopUp(bills, startId + |bills|, random, 36)[..12]
  }

  method GenerateMonthlyBills(homeName: string, startId: int, random: nat -> real) returns (r: seq<ElectricityBill>)
    ensures r == MonthlyBills(startId, random)
  {
    hide DateText, BillId, Draw;
    var bills: seq<ElectricityBill> := [];
    var calls: nat := 0;
    for i := 0 to 12
      invariant bills == ForLoopBills(startId, random, i) && calls == 3 * i
    {
      var month := i + 1;
      var day := Draw(random, calls, 28) + 1;
      var date := DateText(2025, month, day);
      var mainAmount := Draw(random, calls + 1, 100) + 50;
      var motorAmount := Draw(random, calls + 2, 30) + 10;
      calls := calls + 3;
      bills := bills + [ElectricityBill(BillId(startId + i * 2), Main, mainAmount, date,
                                        if i == 3 then Some(CheckedNote) else None)];
      if i % 2 == 0 {
        bills := bills + [ElectricityBill(BillId(startId + i * 2 + 1), Motor, motorAmount, date, None)];
      }
    }
    var billIdCounter := startId + |bills|;
    bills := TopUpBills(bills, billIdCounter, random, calls);
    r := bills[..12];
  }

  /** `generateMonthlyBills`' while loop, for whatever list the for loop
      left: main bills numbered by the counter until there are twelve. */
  method TopUpBills(bills0: seq<ElectricityBill>, counter0: int, random: nat -> real, calls0: nat)
    returns (bills: seq<ElectricityBill>)
    ensures bills == TopUp(bills0, counter0, random, calls0)
  {
    hide DateText, BillId, Draw;
    bills := bills0;
    var billIdCounter := counter0;
    var calls := calls0;
    while |bills| < 12
      invariant TopUp(bills, billIdCounter, random, calls) == TopUp(bills0, counter0, random, calls0)
      decreases 12 - |bills|
    {
      var month := |bills| % 12 + 1;
      var day := Draw(random, calls, 28) + 1;
      var date := DateText(2025, month, day);
      var mainAmount := Draw(random, calls + 1, 100) + 50;
      calls := calls + 2;
      bills := bills + [ElectricityBill(BillId(billIdCounter), Main, mainAmount, date, None)];
      billIdCounter := billIdCounter + 1;
    }
  }

  /** Later iterations only append. */
  lemma {:induction false} ForLoopPrefix(startId: int, random: nat -> real, m: nat, n: nat)
    requires m <= n
    ensures ForLoopBills(startId, random, n)[..|ForLoopBills(startId, random, m)|] == ForLoopBills(startId, random, m)
  {
    hide MonthBills, DateText, Draw;
    if m < n {
      ForLoopPrefix(startId, random, m, n - 1);
      var prev := ForLoopBills(startId, random, n - 1);
      assert ForLoopBills(startId, random, n) == prev + MonthBills(startId, random, n - 1);
      assert |ForLoopBills(startId, random, m)| <= |prev|;
    }
  }

  /** The for loop already makes eighteen bills, so the top-up never runs
      and the twelve kept are the bills of the first eight months: months
      9 to 12 get no bill. */
  lemma MonthlyBillsAreFirstEightMonths(startId: int, random: nat -> real)
    ensures MonthlyBills(startId, random) == ForLoopBills(startId, random, 8)
  {
    hide DateText, Draw;
    ForLoopPrefix(startId, random, 8, 12);
  }

  /** A generated bill: dated in 2025 in a month up to `months` on day 1 to
      28, a main amount in 50..149, a motor amount in 10..39. */
  predicate MockBill(b: ElectricityBill, months: int)
  {
    (exists m, d :: 1 <= m <= months && 1 <= d <= 28 && b.date == DateText(2025, m, d))
    && (b.subscriptionType == Main ==> 50 <= b.amount <= 149)
    && (b.subscriptionType == Motor ==> 10 <= b.amount <= 39)
  }

  lemma {:induction false} ForLoopShape(startId: int, random: nat -> real, n: nat)
    requires forall k :: 0.0 <= random(k) < 1.0
    ensures forall b :: b in ForLoopBills(startId, random, n) ==> MockBill(b, n)
  {
    hide DateText, BillId;
    if n > 0 {
      var i := n - 1;
      ForLoopShape(startId, random, i);
      DrawBounds(random, 3 * i, 28);
      DrawBounds(random, 3 * i + 1, 100);
      DrawBounds(random, 3 * i + 2, 30);
      var day := Draw(random, 3 * i, 28) + 1;
      forall b | b in ForLoopBills(startId, random, n) ensures MockBill(b, n) {
        if b in ForLoopBills(startId, random, i) {
          assert MockBill(b, i);
        } else {
          assert b.date == DateText(2025, n, day);
        }
      }
    }
  }

  /** Twelve bills, all in months 1..8 of 2025, on days 1..28, with amounts
      in their type's range. */
  lemma MonthlyBillsShape(startId: int, random: nat -> real)
    requires forall k :: 0.0 <= random(k) < 1.0
    ensures |MonthlyBills(startId, random)| == 12
    ensures forall b :: b in MonthlyBills(startId, random) ==> MockBill(b, 8)
  {
    MonthlyBillsAreFirstEightMonths(startId, random);
    ForLoopShape(startId, random, 8);
  }

  /** The bill after the first `i` iterations is iteration i's main bill. */
  lemma MainBillAt(startId: int, random: nat -> real, i: nat, n: nat)
    requires i < n
    ensures |ForLoopBills(startId, random, i)| < |ForLoopBills(startId, random, n)|
    ensures ForLoopBills(startId, random, n)[|ForLoopBills(startId, random, i)|].id == BillId(startId + 2 * i)
  {
    hide DateText, Draw;
    ForLoopPrefix(startId, random, i + 1, n);
  }

  /** The homes start their ids 12 apart (1, 13, 25, ...), but a home's
      bills use ids up to its start plus 14: the first home's seventh main
      bill and the second home's first bill are both "bill-13". */
  lemma MockBillIdsCollide(r1: nat -> real, r2: nat -> real)
    ensures MonthlyBills(1, r1)[9].id == MonthlyBills(13, r2)[0].id == "bill-13"
  {
    hide DateText, Draw, BillId;
    MonthlyBillsAreFirstEightMonths(1, r1);
    MonthlyBillsAreFirstEightMonths(13, r2);
    MainBillAt(1, r1, 6, 8);
    MainBillAt(13, r2, 0, 8);
    BillThirteen();
  }

  lemma BillThirteen()
    ensures BillId(13) == "bill-13"
  {
    assert NatToDigits(13) == NatToDigits(1) + [DigitChar(3)];
  }

  /** The generator with the intended numbering: the twelve bills kept are
      numbered consecutively from the start id. */
  function MonthlyBillsNumbered(startId: int, random: nat -> real): (r: seq<ElectricityBill>)
    ensures |r| == 12
    ensures forall i :: 0 <= i < 12 ==> r[i] == MonthlyBills(startId, random)[i].(id := BillId(startId + i))
  {
    var bills := MonthlyBills(startId, random);
    seq(12, i requires 0 <= i < 12 => bills[i].(id := BillId(startId + i)))
  }

  lemma BillIdInjective(a: nat, b: nat)
    requires BillId(a) == BillId(b)
    ensures a == b
  {
    assert BillId(a)[5..] == NatToDigits(a);
    assert BillId(b)[5..] == NatToDigits(b);
    NatToDigitsValue(a);
    NatToDigitsValue(b);
  }

  /** With the intended numbering, homes whose start ids are at least 12
      apart share no bill id. */
  lemma NumberedIdsDisjoint(s1: nat, s2: nat, r1: nat -> real, r2: nat -> real)
    requires s1 + 12 <= s2
    ensures forall i, j :: 0 <= i < 12 && 0 <= j < 12 ==>
      MonthlyBillsNumbered(s1, r1)[i].id != MonthlyBillsNumbered(s2, r2)[j].id
  {
    forall i, j | 0 <= i < 12 && 0 <= j < 12
      ensures MonthlyBillsNumbered(s1, r1)[i].id != MonthlyBillsNumbered(s2, r2)[j].id
    {
      if BillId(s1 + i) == BillId(s2 + j) {
        BillIdInjective(s1 + i, s2 + j);
      }
    }
  }
}
