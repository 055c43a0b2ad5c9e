/** Introduce Special Case: callers that test for a sentinel (`'unknown'`,
    `null`) before reading a field, and a special-case class whose getters
    return the defaults those tests supplied. Each class pair becomes one
    datatype with a constructor for the special case; the sentinel is a
    constructor (or `None`) of the value the original callers receive. */
module IntroduceSpecialCase {
  import opened Js

  // ---------------------------------------------------------------------------
  // Example 1: unknown customer

  datatype CustomerRecord = CustomerRecord(name: string, billingPlan: string, paymentHistory: seq<int>)

  /** What the original callers receive: the string `'unknown'` or a customer. */
  datatype CustomerRef = UnknownSentinel | Known(record: CustomerRecord)

  function GetCustomerNameBefore(customer: CustomerRef): string {
    if customer.UnknownSentinel? then "occupant" else customer.record.name
  }

  function GetCustomerBillingPlanBefore(customer: CustomerRef): string {
    if customer.UnknownSentinel? then "basic" else customer.record.billingPlan
  }

  function GetCustomerPaymentHistoryBefore(customer: CustomerRef): seq<int> {
    if customer.UnknownSentinel? then [] else customer.record.paymentHistory
  }

  datatype Customer = Customer(name: string, billingPlan: string, paymentHistory: seq<int>) | UnknownCustomer
  {
    function Name(): string {
      match this
      case Customer(name, _, _) => name
      case UnknownCustomer => "occupant"
    }

    function BillingPlan(): string {
      match this
      case Customer(_, billingPlan, _) => billingPlan
      case UnknownCustomer => "basic"
    }

    function PaymentHistory(): seq<int> {
      match this
      case Customer(_, _, paymentHistory) => paymentHistory
      case UnknownCustomer => []
    }

    predicate IsUnknown() {
      this.UnknownCustomer?
    }
  }

  datatype CustomerView = CustomerView(name: string, billingPlan: string, paymentHistory: seq<int>)

  function Example1Before(customer: CustomerRef): (r: CustomerView)
    ensures customer.UnknownSentinel? ==> r == CustomerView("occupant", "basic", [])
    ensures customer.Known? ==> r == CustomerView(customer.record.name, customer.record.billingPlan,
                                                 customer.record.paymentHistory)
  {
    CustomerView(GetCustomerNameBefore(customer), GetCustomerBillingPlanBefore(customer),
                 GetCustomerPaymentHistoryBefore(customer))
  }

  /** The special case answers with the defaults the sentinel tests gave. */
  function Example1After(customer: Customer): (r: CustomerView)
    ensures customer.UnknownCustomer? ==> r == CustomerView("occupant", "basic", [])
    ensures customer.Customer? ==> r == CustomerView(customer.name, customer.billingPlan, customer.paymentHistory)
  {
    CustomerView(customer.Name(), customer.BillingPlan(), customer.PaymentHistory())
  }

  /** The special-case object for a sentinel, a real customer otherwise: the
      getters then return what the sentinel tests returned, and only the
      special case reports itself unknown. */
  function SpecialCaseCustomer(customer: CustomerRef): (r: Customer)
    ensures Example1After(r) == Example1Before(customer)
    ensures r.IsUnknown() <==> customer.UnknownSentinel?
  {
    match customer
    case UnknownSentinel => UnknownCustomer
    case Known(c) => Customer(c.name, c.billingPlan, c.paymentHistory)
  }

  lemma Example1Fixture()
    ensures Example1Before(UnknownSentinel) == Example1After(UnknownCustomer) == CustomerView("occupant", "basic", [])
  {
  }

  // ---------------------------------------------------------------------------
  // Example 2: offline connection

  datatype FetchResult = Data(data: string) | FetchError(error: string)

  /** A live connection as the original callers receive it. */
  datatype ConnectionData = ConnectionData(status: string, latency: int)
  {
    function Fetch(url: string): FetchResult {
      Data("Data from " + url)
    }
  }

  function FetchDataBefore(connection: Option<ConnectionData>, url: string): (r: FetchResult)
    ensures connection.None? <==> r.FetchError?
  {
    if connection.None? then FetchError("No connection available") else connection.value.Fetch(url)
  }

  function GetConnectionStatusBefore(connection: Option<ConnectionData>): string {
    if connection.None? then "offline" else connection.value.status
  }

  function GetLatencyBefore(connection: Option<ConnectionData>): int {
    if connection.None? then 0 else connection.value.latency
  }

  datatype Connection = Connection(status: string, latency: int) | OfflineConnection
  {
    function Status(): string {
      match this
      case Connection(status, _) => status
      case OfflineConnection => "offline"
    }

    function Latency(): int {
      match this
      case Connection(_, latency) => latency
      case OfflineConnection => 0
    }

    predicate IsOffline() {
      this.OfflineConnection?
    }

    function Fetch(url: string): (r: FetchResult)
      ensures r.Data? <==> !IsOffline()
      ensures r.Data? ==> |r.data| == 10 + |url| && r.data[..10] == "Data from " && r.data[10..] == url
    {
      match this
      case Connection(_, _) => Data("Data from " + url)
      case OfflineConnection => FetchError("No connection available")
    }
  }

  datatype ConnectionView = ConnectionView(data: FetchResult, status: string, latency: int)

  function Example2Before(connection: Option<ConnectionData>, url: string): (r: ConnectionView)
    ensures connection.None? ==> r == ConnectionView(FetchError("No connection available"), "offline", 0)
    ensures connection.Some? ==> r == ConnectionView(Data("Data from " + url), connection.value.status,
                                                     connection.value.latency)
  {
    ConnectionView(FetchDataBefore(connection, url), GetConnectionStatusBefore(connection), GetLatencyBefore(connection))
  }

  function Example2After(connection: Connection, url: string): (r: ConnectionView)
    ensures connection.OfflineConnection? ==> r == ConnectionView(FetchError("No connection available"), "offline", 0)
    ensures connection.Connection? ==> r == ConnectionView(Data("Data from " + url), connection.status, connection.latency)
  {
    ConnectionView(connection.Fetch(url), connection.Status(), connection.Latency())
  }

  function SpecialCaseConnection(connection: Option<ConnectionData>): (r: Connection)
    ensures forall url :: Example2After(r, url) == Example2Before(connection, url)
    ensures r.IsOffline() <==> connection.None?
  {
    match connection
    case None => OfflineConnection
    case Some(c) => Connection(c.status, c.latency)
  }

  lemma Example2Fixture()
    ensures Example2Before(None, "/api/data") == Example2After(OfflineConnection, "/api/data")
            == ConnectionView(FetchError("No connection available"), "offline", 0)
  {
  }

  // ---------------------------------------------------------------------------
  // Example 3: null order

  datatype OrderData = OrderData(total: int, status: string, items: seq<string>)

  function GetOrderTotalBefore(order: Option<OrderData>): int {
    if order.None? then 0 else order.value.total
  }

  function GetOrderStatusBefore(order: Option<OrderData>): string {
    if order.None? then "not found" else order.value.status
  }

  function GetOrderItemsBefore(order: Option<OrderData>): seq<string> {
    if order.None? then [] else order.value.items
  }

  datatype Order = Order(total: int, status: string, items: seq<string>) | NullOrder
  {
    function Total(): int {
      match this
      case Order(total, _, _) => total
      case NullOrder => 0
    }

    function Status(): string {
      match this
      case Order(_, status, _) => status
      case NullOrder => "not found"
    }

    function Items(): seq<string> {
      match this
      case Order(_, _, items) => items
      case NullOrder => []
    }

    predicate IsNull() {
      this.NullOrder?
    }
  }

  datatype OrderView = OrderView(total: int, status: string, items: seq<string>)

  function Example3Before(order: Option<OrderData>): (r: OrderView)
    ensures order.None? ==> r == OrderView(0, "not found", [])
    ensures order.Some? ==> r == OrderView(order.value.total, order.value.status, order.value.items)
  {
    OrderView(GetOrderTotalBefore(order), GetOrderStatusBefore(order), GetOrderItemsBefore(order))
  }

  function Example3After(order: Order): (r: OrderView)
    ensures order.NullOrder? ==> r == OrderView(0, "not found", [])
    ensures order.Order? ==> r == OrderView(order.total, order.status, order.items)
  {
    OrderView(order.Total(), order.Status(), order.Items())
  }

  function SpecialCaseOrder(order: Option<OrderData>): (r: Order)
    ensures Example3After(r) == Example3Before(order)
    ensures r.IsNull() <==> order.None?
  {
    match order
    case None => NullOrder
    case Some(o) => Order(o.total, o.status, o.items)
  }

  lemma Example3Fixture()
    ensures Example3Before(None) == Example3After(NullOrder) == OrderView(0, "not found", [])
  {
  }
}
