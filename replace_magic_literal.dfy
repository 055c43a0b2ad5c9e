/** Replace Magic Literal: the same rules with the literals 100, 0.1, 200,
    404 and 500 named as constants. */
module ReplaceMagicLiteral {

  // ---------------------------------------------------------------------------
  // Example 1: bulk order rules

  datatype Order = Order(quantity: int, total: real)

  datatype BulkTerms = BulkTerms(discount: real, freeShipping: bool)

  function CalculateDiscountBefore(order: Order): (r: real)
    ensures order.quantity > 100 ==> r == order.total * 0.1
    ensures order.quantity <= 100 ==> r == 0.0
  {
    if order.quantity > 100 then order.total * 0.1 else 0.0
  }

  function Example1Before(order: Order): (r: BulkTerms)
    ensures r.freeShipping <==> order.quantity > 100
    ensures !r.freeShipping ==> r.discount == 0.0
  {
    BulkTerms(CalculateDiscountBefore(order), order.quantity > 100)
  }

  const BulkOrderThreshold := 100
  const BulkDiscountRate := 0.1

  function CalculateDiscount(order: Order): real {
    if order.quantity > BulkOrderThreshold then order.total * BulkDiscountRate else 0.0
  }

  predicate IsEligibleForFreeShipping(order: Order) {
    order.quantity > BulkOrderThreshold
  }

  function Example1After(order: Order): (r: BulkTerms)
    ensures r == Example1Before(order)
  {
    BulkTerms(CalculateDiscount(order), IsEligibleForFreeShipping(order))
  }

  /** The threshold is strict: exactly 100 units earn nothing. */
  lemma ThresholdIsStrict(total: real)
    ensures Example1After(Order(100, total)) == BulkTerms(0.0, false)
    ensures Example1After(Order(101, total)) == BulkTerms(total * 0.1, true)
  {
  }

  lemma Example1Fixture()
    ensures Example1After(Order(150, 1000.0)) == BulkTerms(100.0, true)
  {
  }

  // ---------------------------------------------------------------------------
  // Example 2: HTTP status codes

  datatype Response = Response(status: int, body: string)

  datatype Handled = Data(data: string) | Error(error: string)

  datatype ResponseSummary = ResponseSummary(result: Handled, success: bool)

  function HandleResponseBefore(response: Response): (r: Handled)
    ensures r.Data? <==> response.status == 200
    ensures r.Data? ==> r.data == response.body
    ensures response.status == 404 ==> r == Error("Not found")
    ensures response.status == 500 ==> r == Error("Server error")
    ensures response.status !in {200, 404, 500} ==> r == Error("Unknown error")
  {
    if response.status == 404 then Error("Not found")
    else if response.status == 500 then Error("Server error")
    else if response.status == 200 then Data(response.body)
    else Error("Unknown error")
  }

  function Example2Before(response: Response): (r: ResponseSummary)
    ensures r.success <==> r.result.Data?
  {
    ResponseSummary(HandleResponseBefore(response), response.status == 200)
  }

  const HttpOk := 200
  const HttpNotFound := 404
  const HttpInternalServerError := 500

  function HandleResponse(response: Response): Handled {
    if response.status == HttpNotFound then Error("Not found")
    else if response.status == HttpInternalServerError then Error("Server error")
    else if response.status == HttpOk then Data(response.body)
    else Error("Unknown error")
  }

  predicate IsSuccessful(response: Response) {
    response.status == HttpOk
  }

  function Example2After(response: Response): (r: ResponseSummary)
    ensures r == Example2Before(response)
  {
    ResponseSummary(HandleResponse(response), IsSuccessful(response))
  }

  lemma Example2Fixture()
    ensures Example2After(Response(200, "John")) == ResponseSummary(Data("John"), true)
  {
  }
}
