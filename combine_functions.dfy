/** Combine Functions into Class: free functions that all take the same
    record, and a class built from that record whose getters compute the same
    values. The classes never change after construction, so they are
    datatypes. */
module CombineFunctions {
  import opened Js

  // ---------------------------------------------------------------------------
  // Example 1: utility reading charges

  datatype RawReading = RawReading(customer: string, quantity: int, month: int, year: int)

  /** The rate table is a single constant: it ignores month and year. */
  function BaseRate(month: int, year: int): real { 0.15 }

  function TaxThreshold(year: int): real { 20.0 }

  function AcquireReading(): RawReading {
    RawReading("ivan", 150, 5, 2024)
  }

  function BaseCharge(aReading: RawReading): (r: real)
    ensures r == 0.15 * aReading.quantity as real
  {
    BaseRate(aReading.month, aReading.year) * aReading.quantity as real
  }

  /** `Math.max(0, baseCharge - taxThreshold)`: the charge above the
      threshold, never negative. */
  function TaxableCharge(aReading: RawReading): (r: real)
    ensures r >= 0.0 && r >= BaseCharge(aReading) - 20.0
    ensures r == 0.0 || r == BaseCharge(aReading) - 20.0
  {
    var over := BaseCharge(aReading) - TaxThreshold(aReading.year);
    if 0.0 >= over then 0.0 else over
  }

  function CalculateBaseCharge(aReading: RawReading): (r: real)
    ensures r == 0.15 * aReading.quantity as real
    ensures r == BaseCharge(aReading)
  {
    BaseCharge(aReading)
  }

  datatype Reading = Reading(customer: string, quantity: int, month: int, year: int)
  {
    function BaseCharge(): (r: real)
      ensures r == 0.15 * quantity as real
    {
      BaseRate(month, year) * quantity as real
    }

    function TaxableCharge(): (r: real)
      ensures r >= 0.0 && r >= BaseCharge() - 20.0
      ensures r == 0.0 || r == BaseCharge() - 20.0
    {
      var over := BaseCharge() - TaxThreshold(year);
      if 0.0 >= over then 0.0 else over
    }

    function CalculateBaseCharge(): real { BaseCharge() }
  }

  function NewReading(data: RawReading): Reading {
    Reading(data.customer, data.quantity, data.month, data.year)
  }

  datatype Charges = Charges(base: real, taxable: real)

  function Example1Before(rawReading: RawReading): (r: Charges)
    ensures r.taxable >= 0.0 && r.taxable >= r.base - 20.0
  {
    Charges(BaseCharge(rawReading), TaxableCharge(rawReading))
  }

  function Example1After(rawReading: RawReading): (r: Charges)
    ensures r == Example1Before(rawReading)
  {
    var aReading := NewReading(rawReading);
    Charges(aReading.BaseCharge(), aReading.TaxableCharge())
  }

  /** 150 units at 0.15 give a base of 22.5, 2.5 above the threshold. */
  lemma Example1Fixture()
    ensures Example1After(AcquireReading()) == Charges(22.5, 2.5)
  {
  }

  // ---------------------------------------------------------------------------
  // Example 2: invoice calculations

  datatype LineItem = LineItem(price: int, quantity: int)

  datatype InvoiceData = InvoiceData(items: seq<LineItem>, taxRate: real, shippingFee: int, dueDate: string)

  function LineAmount(item: LineItem): int {
    item.price * item.quantity
  }

  /** A line item with no negative price or quantity. */
  predicate NonNegativeItem(item: LineItem) {
    item.price >= 0 && item.quantity >= 0
  }

  lemma SubtotalNonNegative(items: seq<LineItem>)
    ensures (forall k :: 0 <= k < |items| ==> NonNegativeItem(items[k])) ==> Sum(Map(items, LineAmount)) >= 0
  {
    if forall k :: 0 <= k < |items| ==> NonNegativeItem(items[k]) {
      var amounts := Map(items, LineAmount);
      forall k | 0 <= k < |amounts|
        ensures amounts[k] >= 0
      {
        LineAmountNonNegative(items[k]);
      }
      SumNonNegative(amounts);
    }
  }

  lemma LineAmountNonNegative(item: LineItem)
    requires NonNegativeItem(item)
    ensures LineAmount(item) >= 0
  {
  }

  /** `items.reduce((sum, item) => sum + item.price * item.quantity, 0)` */
  function CalculateSubtotal(invoice: InvoiceData): (r: int)
    ensures (forall k :: 0 <= k < |invoice.items| ==> NonNegativeItem(invoice.items[k])) ==> r >= 0
  {
    SubtotalNonNegative(invoice.items);
    Sum(Map(invoice.items, LineAmount))
  }

  function CalculateTax(invoice: InvoiceData): (r: real)
    ensures r == CalculateSubtotal(invoice) as real * invoice.taxRate
  {
    var subtotal := CalculateSubtotal(invoice);
    subtotal as real * invoice.taxRate
  }

  function CalculateTotal(invoice: InvoiceData): (r: real)
    ensures r == CalculateSubtotal(invoice) as real * (1.0 + invoice.taxRate) + invoice.shippingFee as real
  {
    CalculateSubtotal(invoice) as real + CalculateTax(invoice) + invoice.shippingFee as real
  }

  datatype FormattedInvoice = FormattedInvoice(subtotal: int, tax: real, total: real, dueDate: string)

  function FormatInvoice(invoice: InvoiceData): (r: FormattedInvoice)
    ensures r.total == r.subtotal as real + r.tax + invoice.shippingFee as real
    ensures r.dueDate == invoice.dueDate
  {
    FormattedInvoice(CalculateSubtotal(invoice), CalculateTax(invoice), CalculateTotal(invoice), invoice.dueDate)
  }

  datatype Invoice = Invoice(items: seq<LineItem>, taxRate: real, shippingFee: int, dueDate: string)
  {
    function Subtotal(): (r: int)
      ensures (forall k :: 0 <= k < |items| ==> NonNegativeItem(items[k])) ==> r >= 0
    {
      SubtotalNonNegative(items);
      Sum(Map(items, LineAmount))
    }

    function Tax(): real { Subtotal() as real * taxRate }

    function Total(): real { Subtotal() as real + Tax() + shippingFee as real }

    function Format(): (r: FormattedInvoice)
      ensures r.total == r.subtotal as real + r.tax + shippingFee as real
    {
      FormattedInvoice(Subtotal(), Tax(), Total(), dueDate)
    }
  }

  function NewInvoice(data: InvoiceData): Invoice {
    Invoice(data.items, data.taxRate, data.shippingFee, data.dueDate)
  }

  datatype InvoiceResult = InvoiceResult(total: real, formatted: FormattedInvoice)

  function Example2Before(invoice: InvoiceData): (r: InvoiceResult)
    ensures r.total == r.formatted.total
  {
    InvoiceResult(CalculateTotal(invoice), FormatInvoice(invoice))
  }

  function Example2After(data: InvoiceData): (r: InvoiceResult)
    ensures r == Example2Before(data)
  {
    var invoice := NewInvoice(data);
    InvoiceResult(invoice.Total(), invoice.Format())
  }

  const Example2Invoice := InvoiceData([LineItem(10, 2), LineItem(15, 1)], 0.08, 10, "2025-12-01")

  /** 10*2 + 15*1 = 35, with 8% tax and a shipping fee of 10. */
  lemma Example2Fixture()
    ensures Example2After(Example2Invoice).formatted == FormattedInvoice(35, 2.8, 47.8, "2025-12-01")
  {
    assert Map([LineItem(10, 2), LineItem(15, 1)], LineAmount) == [20, 15];
    assert [20, 15][..1] == [20];
    assert [20][..0] == [];
    assert Sum([20, 15]) == 35;
  }

  // ---------------------------------------------------------------------------
  // Example 3: date formatting

  datatype DateData = DateData(month: int, day: int, year: int)

  const MonthNames: seq<string> := ["January", "February", "March", "April", "May", "June",
                                     "July", "August", "September", "October", "November", "December"]

  const DaysPerMonth: seq<int> := [31, 28, 31, 30, 31, 30, 31, 31, 30, 31, 30, 31]

  /** `${monthNames[month - 1]}`: an index outside the table reads
      `undefined`, which the template prints as that word. */
  function MonthName(month: int): (r: string)
    ensures 1 <= month <= 12 ==> r == MonthNames[month - 1]
    ensures !(1 <= month <= 12) ==> r == "undefined"
  {
    if 1 <= month <= 12 then MonthNames[month - 1] else "undefined"
  }

  function FormatShortDate(dateData: DateData): string {
    IntToString(dateData.month) + "/" + IntToString(dateData.day) + "/" + IntToString(dateData.year)
  }

  function FormatLongDate(dateData: DateData): string {
    MonthName(dateData.month) + " " + IntToString(dateData.day) + ", " + IntToString(dateData.year)
  }

  /** The Gregorian rule. Only whether a remainder is zero matters, so
      JavaScript's truncating `%` and Dafny's Euclidean `%` agree here. */
  predicate IsLeapYear(dateData: DateData) {
    (dateData.year % 4 == 0 && dateData.year % 100 != 0) || dateData.year % 400 == 0
  }

  /** None is the `undefined` an out-of-range month reads from the table. */
  function DaysInMonth(dateData: DateData): (r: Option<int>)
    ensures r.Some? <==> 1 <= dateData.month <= 12
    ensures r.Some? ==> 28 <= r.value <= 31
    ensures r == Some(29) <==> dateData.month == 2 && IsLeapYear(dateData)
    ensures r == Some(28) <==> dateData.month == 2 && !IsLeapYear(dateData)
  {
    if dateData.month == 2 && IsLeapYear(dateData) then Some(29)
    else if 1 <= dateData.month <= 12 then Some(DaysPerMonth[dateData.month - 1])
    else None
  }

  /** The leap-year rule repeats every 400 years. */
  lemma LeapYearPeriod(month: int, day: int, year: int)
    ensures IsLeapYear(DateData(month, day, year + 400)) == IsLeapYear(DateData(month, day, year))
  {
    assert (year + 400) % 4 == year % 4;
    assert (year + 400) % 100 == year % 100;
    assert (year + 400) % 400 == year % 400;
  }

  datatype DateFormatter = DateFormatter(month: int, day: int, year: int)
  {
    function ShortFormat(): string {
      IntToString(month) + "/" + IntToString(day) + "/" + IntToString(year)
    }

    function LongFormat(): string {
      MonthName(month) + " " + IntToString(day) + ", " + IntToString(year)
    }

    predicate IsLeapYear() {
      (year % 4 == 0 && year % 100 != 0) || year % 400 == 0
    }

    function DaysInMonth(): (r: Option<int>)
      ensures r.Some? <==> 1 <= month <= 12
    {
      if month == 2 && IsLeapYear() then Some(29)
      else if 1 <= month <= 12 then Some(DaysPerMonth[month - 1])
      else None
    }
  }

  function NewDateFormatter(data: DateData): DateFormatter {
    DateFormatter(data.month, data.day, data.year)
  }

  datatype DateSummary = DateSummary(short: string, long: string, days: Option<int>)

  function Example3Before(date: DateData): (r: DateSummary)
    ensures r.days.Some? <==> 1 <= date.month <= 12
  {
    DateSummary(FormatShortDate(date), FormatLongDate(date), DaysInMonth(date))
  }

  /** The class computes the same three values for every date record. */
  function Example3After(data: DateData): (r: DateSummary)
    ensures r == Example3Before(data)
  {
    var date := NewDateFormatter(data);
    DateSummary(date.ShortFormat(), date.LongFormat(), date.DaysInMonth())
  }

  lemma Digits15()
    ensures IntToString(15) == "15"
  {
    assert NatToString(15) == NatToString(1) + "5";
  }

  lemma Digits2024()
    ensures IntToString(2024) == "2024"
  {
    assert NatToString(20) == NatToString(2) + "0";
    assert NatToString(202) == NatToString(20) + "2";
    assert NatToString(2024) == NatToString(202) + "4";
  }

  lemma ShortText()
    ensures "2" + "/" + "15" + "/" + "2024" == "2/15/2024"
  {
  }

  lemma LongText()
    ensures "February" + " " + "15" + ", " + "2024" == "February 15, 2024"
  {
  }

  lemma FixtureShort(date: DateFormatter)
    requires date == DateFormatter(2, 15, 2024)
    ensures date.ShortFormat() == "2/15/2024"
  {
    assert IntToString(2) == "2";
    Digits15();
    Digits2024();
    ShortText();
  }

  lemma FixtureLong(date: DateFormatter)
    requires date == DateFormatter(2, 15, 2024)
    ensures date.LongFormat() == "February 15, 2024"
  {
    assert MonthName(2) == "February";
    Digits15();
    Digits2024();
    LongText();
  }

  lemma Example3Fixture(date: DateData)
    requires date == DateData(2, 15, 2024)
    ensures Example3After(date) == DateSummary("2/15/2024", "February 15, 2024", Some(29))
  {
    FixtureShort(NewDateFormatter(date));
    FixtureLong(NewDateFormatter(date));
  }
}
