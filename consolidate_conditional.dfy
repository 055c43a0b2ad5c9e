/** Consolidate conditional expression: a run of early returns with the same
    result, and the same tests merged into one named predicate. */
module ConsolidateConditional {

  // ---------------------------------------------------------------------------
  // Example 1: disability benefits check

  datatype DisabilityClaim = DisabilityClaim(seniority: int, monthsDisabled: int, isPartTime: bool)

  /** The record both example 1 functions build. */
  const Example1Claim := DisabilityClaim(1, 6, false)

  function CalculateDisabilityAmount(e: DisabilityClaim): int {
    1000
  }

  function IsNotEligibleForDisability(e: DisabilityClaim): bool {
    e.seniority < 2 || e.monthsDisabled > 12 || e.isPartTime
  }

  /** Three early returns of 0, then the benefit amount. */
  function Example1Before(e: DisabilityClaim): (r: int)
    ensures r == 0 || r == 1000
    ensures r == 1000 <==> e.seniority >= 2 && e.monthsDisabled <= 12 && !e.isPartTime
  {
    if e.seniority < 2 then 0
    else if e.monthsDisabled > 12 then 0
    else if e.isPartTime then 0
    else CalculateDisabilityAmount(e)
  }

  function Example1After(e: DisabilityClaim): (r: int)
    ensures r == Example1Before(e)
  {
    if IsNotEligibleForDisability(e) then 0 else CalculateDisabilityAmount(e)
  }

  lemma Example1Fixture()
    ensures Example1Before(Example1Claim) == 0 && Example1After(Example1Claim) == 0
  {
  }

  // ---------------------------------------------------------------------------
  // Example 2: discount eligibility

  datatype Order = Order(total: int, isLoyalCustomer: bool, itemCount: int)

  const Example2Order := Order(40, false, 3)

  function IsNotEligibleForDiscount(order: Order): bool {
    order.total < 50 || !order.isLoyalCustomer || order.itemCount < 5
  }

  function Example2Before(order: Order): (r: string)
    ensures r == "no discount" || r == "discount applied"
    ensures r == "no discount" <==> order.total < 50 || !order.isLoyalCustomer || order.itemCount < 5
  {
    if order.total < 50 then "no discount"
    else if !order.isLoyalCustomer then "no discount"
    else if order.itemCount < 5 then "no discount"
    else "discount applied"
  }

  function Example2After(order: Order): (r: string)
    ensures r == Example2Before(order)
  {
    if IsNotEligibleForDiscount(order) then "no discount" else "discount applied"
  }

  lemma Example2Fixture()
    ensures Example2Before(Example2Order) == "no discount" && Example2After(Example2Order) == "no discount"
  {
  }

  // ---------------------------------------------------------------------------
  // Example 3: access permission check

  datatype AccessUser = AccessUser(isAdmin: bool, hasPermission: bool, isActive: bool)

  const Example3User := AccessUser(false, false, true)

  function HasAccess(user: AccessUser): bool {
    user.isAdmin && user.hasPermission && user.isActive
  }

  /** Starts from `canAccess = true` and clears it once per failed test. */
  method Example3Before(user: AccessUser) returns (r: string)
    ensures r == Example3After(user)
  {
    var canAccess := true;
    if !user.isAdmin {
      canAccess := false;
    }
    if !user.hasPermission {
      canAccess := false;
    }
    if !user.isActive {
      canAccess := false;
    }
    r := if canAccess then "access granted" else "access denied";
  }

  function Example3After(user: AccessUser): (r: string)
    ensures r == "access granted" || r == "access denied"
    ensures r == "access granted" <==> user.isAdmin && user.hasPermission && user.isActive
  {
    if HasAccess(user) then "access granted" else "access denied"
  }

  lemma Example3Fixture()
    ensures Example3After(Example3User) == "access denied"
  {
  }
}
