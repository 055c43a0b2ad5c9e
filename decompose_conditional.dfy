/** Decompose conditional: a compound condition and its two branches, and the
    same with the condition and each branch extracted into a function. */
module DecomposeConditional {

  // ---------------------------------------------------------------------------
  // Example 1: seasonal pricing

  /** A calendar day, counted from 2024-01-01 (day 0). */
  type Day = int

  /** 2024-06-01 and 2024-08-31 (2024 is a leap year). */
  const SummerStart: Day := 152
  const SummerEnd: Day := 243

  /** 2024-03-15, the date both example 1 functions use. */
  const Example1Date: Day := 74

  datatype Plan = Plan(regularRate: int, regularServiceCharge: int, summerRate: int)

  const Example1Plan := Plan(25, 50, 25)

  function IsNotSummer(date: Day): (r: bool)
    ensures !r <==> SummerStart <= date <= SummerEnd
  {
    date < SummerStart || date > SummerEnd
  }

  function WinterCharge(quantity: int, plan: Plan): int {
    quantity * plan.regularRate + plan.regularServiceCharge
  }

  function SummerCharge(quantity: int, plan: Plan): int {
    quantity * plan.summerRate
  }

  function Example1Before(date: Day, quantity: int, plan: Plan): (r: int)
    ensures SummerStart <= date <= SummerEnd ==> r == quantity * plan.summerRate
    ensures !(SummerStart <= date <= SummerEnd) ==>
              r == quantity * plan.regularRate + plan.regularServiceCharge
  {
    if date < SummerStart || date > SummerEnd then
      quantity * plan.regularRate + plan.regularServiceCharge
    else
      quantity * plan.summerRate
  }

  function Example1After(date: Day, quantity: int, plan: Plan): (r: int)
    ensures r == Example1Before(date, quantity, plan)
  {
    if IsNotSummer(date) then WinterCharge(quantity, plan) else SummerCharge(quantity, plan)
  }

  /** The fixture falls outside summer and is charged 10 * 25 + 50. */
  lemma Example1Fixture()
    ensures IsNotSummer(Example1Date)
    ensures Example1After(Example1Date, 10, Example1Plan) == 300
  {
  }

  // ---------------------------------------------------------------------------
  // Example 2: eligibility check

  datatype Applicant = Applicant(age: int, income: int, creditScore: int, hasDebt: bool)

  const Example2Applicant := Applicant(25, 75000, 720, false)

  function IsEligibleForPremium(user: Applicant): bool {
    user.age >= 18 && user.age <= 65 && user.income >= 50000 && user.creditScore >= 700 && !user.hasDebt
  }

  function EligibleMessage(): string {
    "Eligible for premium plan"
  }

  function NotEligibleMessage(): string {
    "Not eligible for premium plan"
  }

  function Example2Before(user: Applicant): (r: string)
    ensures r == "Eligible for premium plan" <==>
              18 <= user.age <= 65 && user.income >= 50000 && user.creditScore >= 700 && !user.hasDebt
    ensures r == "Eligible for premium plan" || r == "Not eligible for premium plan"
  {
    if user.age >= 18 && user.age <= 65 && user.income >= 50000 && user.creditScore >= 700 && !user.hasDebt then
      "Eligible for premium plan"
    else
      "Not eligible for premium plan"
  }

  function Example2After(user: Applicant): (r: string)
    ensures r == Example2Before(user)
  {
    if IsEligibleForPremium(user) then EligibleMessage() else NotEligibleMessage()
  }

  lemma Example2Fixture()
    ensures Example2After(Example2Applicant) == "Eligible for premium plan"
  {
  }

  // ---------------------------------------------------------------------------
  // Example 3: discount calculation

  /** `total` is a number; the 10% discount makes the result a real. */
  datatype DiscountOrder = DiscountOrder(total: real, isLoyalCustomer: bool, itemCount: int)

  const Example3Order := DiscountOrder(100.0, true, 5)

  function QualifiesForDiscount(order: DiscountOrder): bool {
    (order.total > 50.0 && order.isLoyalCustomer) || order.itemCount > 10
  }

  function ApplyDiscount(order: DiscountOrder): real {
    order.total * 0.9
  }

  function RegularPrice(order: DiscountOrder): real {
    order.total
  }

  function Example3Before(order: DiscountOrder): (r: real)
    ensures (order.total > 50.0 && order.isLoyalCustomer) || order.itemCount > 10 ==> r == order.total * 0.9
    ensures !((order.total > 50.0 && order.isLoyalCustomer) || order.itemCount > 10) ==> r == order.total
    ensures order.total >= 0.0 ==> 0.0 <= r <= order.total
  {
    if (order.total > 50.0 && order.isLoyalCustomer) || order.itemCount > 10 then order.total * 0.9
    else order.total
  }

  function Example3After(order: DiscountOrder): (r: real)
    ensures r == Example3Before(order)
  {
    if QualifiesForDiscount(order) then ApplyDiscount(order) else RegularPrice(order)
  }

  lemma Example3Fixture()
    ensures Example3After(Example3Order) == 90.0
  {
  }
}
