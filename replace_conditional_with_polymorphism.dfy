/** Replace conditional with polymorphism: functions that switch on a type
    string, and one subclass per type whose getters hold each branch. A
    subclass hierarchy becomes a datatype with one constructor per class and
    member functions for the getters; the factory picks the constructor. */
module ReplaceConditionalWithPolymorphism {
  import opened Js

  // ---------------------------------------------------------------------------
  // Example 1: bird types

  /** A bird record; a field a type does not use is simply never read. */
  datatype BirdRecord = BirdRecord(kind: string, name: string, numberOfCoconuts: int, voltage: int, isNailed: bool)

  function Plumage(bird: BirdRecord): (r: string)
    ensures bird.kind == "EuropeanSwallow" ==> r == "average"
    ensures bird.kind == "AfricanSwallow" ==> r == if bird.numberOfCoconuts > 2 then "tired" else "average"
    ensures bird.kind == "NorwegianBlueParrot" ==> r == if bird.voltage > 100 then "scorched" else "beautiful"
    ensures bird.kind !in {"EuropeanSwallow", "AfricanSwallow", "NorwegianBlueParrot"} ==> r == "unknown"
  {
    match bird.kind
    case "EuropeanSwallow" => "average"
    case "AfricanSwallow" => if bird.numberOfCoconuts > 2 then "tired" else "average"
    case "NorwegianBlueParrot" => if bird.voltage > 100 then "scorched" else "beautiful"
    case _ => "unknown"
  }

  /** None stands for `null`, the unknown type's speed. */
  function AirSpeedVelocity(bird: BirdRecord): (r: Option<real>)
    ensures r.None? <==> bird.kind !in {"EuropeanSwallow", "AfricanSwallow", "NorwegianBlueParrot"}
    ensures bird.kind == "EuropeanSwallow" ==> r == Some(35.0)
    ensures bird.kind == "AfricanSwallow" ==> r == Some((40 - 2 * bird.numberOfCoconuts) as real)
    ensures bird.kind == "NorwegianBlueParrot" && bird.isNailed ==> r == Some(0.0)
  {
    match bird.kind
    case "EuropeanSwallow" => Some(35.0)
    case "AfricanSwallow" => Some((40 - 2 * bird.numberOfCoconuts) as real)
    case "NorwegianBlueParrot" => if bird.isNailed then Some(0.0) else Some(10.0 + bird.voltage as real / 10.0)
    case _ => None
  }

  /** The class hierarchy: `Bird` and its three subclasses, each holding the
      record copied in by `Object.assign`. */
  datatype Bird =
    | EuropeanSwallow(data: BirdRecord)
    | AfricanSwallow(data: BirdRecord)
    | NorwegianBlueParrot(data: BirdRecord)
    | GenericBird(data: BirdRecord)
  {
    function Plumage(): string {
      match this
      case EuropeanSwallow(_) => "average"
      case AfricanSwallow(b) => if b.numberOfCoconuts > 2 then "tired" else "average"
      case NorwegianBlueParrot(b) => if b.voltage > 100 then "scorched" else "beautiful"
      case GenericBird(_) => "unknown"
    }

    function AirSpeedVelocity(): Option<real> {
      match this
      case EuropeanSwallow(_) => Some(35.0)
      case AfricanSwallow(b) => Some((40 - 2 * b.numberOfCoconuts) as real)
      case NorwegianBlueParrot(b) => if b.isNailed then Some(0.0) else Some(10.0 + b.voltage as real / 10.0)
      case GenericBird(_) => None
    }
  }

  /** The factory's object answers every getter as the switch does. */
  function CreateBird(birdObject: BirdRecord): (r: Bird)
    ensures r.data == birdObject
    ensures r.Plumage() == Plumage(birdObject)
    ensures r.AirSpeedVelocity() == AirSpeedVelocity(birdObject)
  {
    match birdObject.kind
    case "EuropeanSwallow" => EuropeanSwallow(birdObject)
    case "AfricanSwallow" => AfricanSwallow(birdObject)
    case "NorwegianBlueParrot" => NorwegianBlueParrot(birdObject)
    case _ => GenericBird(birdObject)
  }

  datatype BirdSummary = BirdSummary(name: string, plumage: string, airSpeedVelocity: Option<real>)

  function SummarizeRecord(bird: BirdRecord): BirdSummary {
    BirdSummary(bird.name, Plumage(bird), AirSpeedVelocity(bird))
  }

  function SummarizeBird(bird: Bird): BirdSummary {
    BirdSummary(bird.data.name, bird.Plumage(), bird.AirSpeedVelocity())
  }

  function Example1Before(birds: seq<BirdRecord>): (r: seq<BirdSummary>)
    ensures |r| == |birds|
    ensures forall k :: 0 <= k < |birds| ==> r[k].name == birds[k].name && r[k].plumage == Plumage(birds[k])
  {
    Map(birds, SummarizeRecord)
  }

  /** Mapping through createBird first gives the same list, element by element. */
  function Example1After(birds: seq<BirdRecord>): (r: seq<BirdSummary>)
    ensures r == Example1Before(birds)
  {
    var r := Map(Map(birds, CreateBird), SummarizeBird);
    assert forall k :: 0 <= k < |birds| ==> r[k] == SummarizeRecord(birds[k]);
    r
  }

  const Example1Birds := [
    BirdRecord("EuropeanSwallow", "Swifty", 0, 0, false),
    BirdRecord("AfricanSwallow", "Coco", 3, 0, false),
    BirdRecord("NorwegianBlueParrot", "Blue", 0, 150, false)
  ]

  lemma Example1Fixture()
    ensures Example1After(Example1Birds) == [
      BirdSummary("Swifty", "average", Some(35.0)),
      BirdSummary("Coco", "tired", Some(34.0)),
      BirdSummary("Blue", "scorched", Some(25.0))
    ]
  {
  }

  // ---------------------------------------------------------------------------
  // Example 2: payment methods

  datatype PaymentRecord = PaymentRecord(kind: string, amount: int)

  datatype Processed = Processed(fee: real, processingTime: string, message: string)

  datatype PaymentView = PaymentView(fee: real, processingTime: string, message: string, canRefund: bool)

  function ProcessPayment(payment: PaymentRecord): (r: Processed)
    ensures payment.kind == "creditCard" ==> r.processingTime == "1 day"
    ensures payment.kind == "paypal" ==> r.processingTime == "instant"
    ensures payment.kind == "bankTransfer" ==> r.processingTime == "3 days" && r.fee == 0.0
    ensures payment.kind !in {"creditCard", "paypal", "bankTransfer"} ==>
              r == Processed(0.0, "unknown", "Unknown payment method")
  {
    match payment.kind
    case "creditCard" =>
      Processed(payment.amount as real * 0.03, "1 day",
                "Credit card payment of $" + IntToString(payment.amount) + " processed")
    case "paypal" =>
      Processed(payment.amount as real * 0.029 + 0.30, "instant",
                "PayPal payment of $" + IntToString(payment.amount) + " processed")
    case "bankTransfer" =>
      Processed(0.0, "3 days", "Bank transfer of $" + IntToString(payment.amount) + " processed")
    case _ =>
      Processed(0.0, "unknown", "Unknown payment method")
  }

  function CanRefund(payment: PaymentRecord): (r: bool)
    ensures r <==> (payment.kind == "creditCard" && payment.amount <= 5000) || payment.kind == "paypal"
  {
    match payment.kind
    case "creditCard" => payment.amount <= 5000
    case "paypal" => true
    case "bankTransfer" => false
    case _ => false
  }

  datatype Payment =
    | CreditCardPayment(amount: int)
    | PayPalPayment(amount: int)
    | BankTransferPayment(amount: int)
    | GenericPayment(amount: int)
  {
    function Fee(): real {
      match this
      case CreditCardPayment(a) => a as real * 0.03
      case PayPalPayment(a) => a as real * 0.029 + 0.30
      case BankTransferPayment(_) => 0.0
      case GenericPayment(_) => 0.0
    }

    function ProcessingTime(): string {
      match this
      case CreditCardPayment(_) => "1 day"
      case PayPalPayment(_) => "instant"
      case BankTransferPayment(_) => "3 days"
      case GenericPayment(_) => "unknown"
    }

    function Message(): string {
      match this
      case CreditCardPayment(a) => "Credit card payment of $" + IntToString(a) + " processed"
      case PayPalPayment(a) => "PayPal payment of $" + IntToString(a) + " processed"
      case BankTransferPayment(a) => "Bank transfer of $" + IntToString(a) + " processed"
      case GenericPayment(_) => "Unknown payment method"
    }

    function CanRefund(): bool {
      match this
      case CreditCardPayment(a) => a <= 5000
      case PayPalPayment(_) => true
      case BankTransferPayment(_) => false
      case GenericPayment(_) => false
    }
  }

  /** The factory's object answers every getter as the two switches do. */
  function CreatePayment(kind: string, amount: int): (r: Payment)
    ensures r.amount == amount
    ensures ProcessPayment(PaymentRecord(kind, amount)) == Processed(r.Fee(), r.ProcessingTime(), r.Message())
    ensures r.CanRefund() == CanRefund(PaymentRecord(kind, amount))
  {
    match kind
    case "creditCard" => CreditCardPayment(amount)
    case "paypal" => PayPalPayment(amount)
    case "bankTransfer" => BankTransferPayment(amount)
    case _ => GenericPayment(amount)
  }

  /** `{ ...processPayment(payment), canRefund: canRefund(payment) }` */
  function ViewRecord(payment: PaymentRecord): PaymentView {
    var p := ProcessPayment(payment);
    PaymentView(p.fee, p.processingTime, p.message, CanRefund(payment))
  }

  function ViewPayment(payment: Payment): PaymentView {
    PaymentView(payment.Fee(), payment.ProcessingTime(), payment.Message(), payment.CanRefund())
  }

  function Example2Before(payments: seq<PaymentRecord>): (r: seq<PaymentView>)
    ensures |r| == |payments|
    ensures forall k :: 0 <= k < |payments| ==> r[k].canRefund == CanRefund(payments[k])
  {
    Map(payments, ViewRecord)
  }

  function CreateFromRecord(payment: PaymentRecord): Payment {
    CreatePayment(payment.kind, payment.amount)
  }

  function Example2After(payments: seq<PaymentRecord>): (r: seq<PaymentView>)
    ensures r == Example2Before(payments)
  {
    var r := Map(Map(payments, CreateFromRecord), ViewPayment);
    assert forall k :: 0 <= k < |payments| ==> r[k] == ViewRecord(payments[k]);
    r
  }

  const Example2Payments := [PaymentRecord("creditCard", 100), PaymentRecord("paypal", 50), PaymentRecord("bankTransfer", 200)]

  lemma Example2Fixture()
    ensures var r := Example2After(Example2Payments);
      |r| == 3 && r[0].fee == 3.0 && r[1].fee == 1.75 && r[2].fee == 0.0
      && r[0].canRefund && r[1].canRefund && !r[2].canRefund
  {
  }

  // ---------------------------------------------------------------------------
  // Example 3: pricing strategies

  datatype Product = Product(name: string, basePrice: real, pricingType: string, inSeason: bool, quantity: int)

  function CalculatePrice(product: Product): (r: real)
    ensures product.pricingType !in {"premium", "seasonal", "bulk"} ==> r == product.basePrice
    ensures product.pricingType == "premium" ==> r == product.basePrice * 1.5
  {
    match product.pricingType
    case "standard" => product.basePrice
    case "premium" => product.basePrice * 1.5
    case "seasonal" => if product.inSeason then product.basePrice * 0.8 else product.basePrice * 1.2
    case "bulk" => if product.quantity > 10 then product.basePrice * 0.9 else product.basePrice
    case _ => product.basePrice
  }

  function GetDiscount(product: Product): (r: int)
    ensures r == 20 <==> product.pricingType == "seasonal" && product.inSeason
    ensures r == 10 <==> product.pricingType == "bulk" && product.quantity > 10
    ensures r == 0 || r == 10 || r == 20
  {
    match product.pricingType
    case "standard" => 0
    case "premium" => 0
    case "seasonal" => if product.inSeason then 20 else 0
    case "bulk" => if product.quantity > 10 then 10 else 0
    case _ => 0
  }

  datatype PricingStrategy =
    | StandardPricing(product: Product)
    | PremiumPricing(product: Product)
    | SeasonalPricing(product: Product)
    | BulkPricing(product: Product)
    | BasePricing(product: Product)
  {
    function Price(): real {
      match this
      case StandardPricing(p) => p.basePrice
      case PremiumPricing(p) => p.basePrice * 1.5
      case SeasonalPricing(p) => if p.inSeason then p.basePrice * 0.8 else p.basePrice * 1.2
      case BulkPricing(p) => if p.quantity > 10 then p.basePrice * 0.9 else p.basePrice
      case BasePricing(p) => p.basePrice
    }

    function Discount(): int {
      match this
      case StandardPricing(_) => 0
      case PremiumPricing(_) => 0
      case SeasonalPricing(p) => if p.inSeason then 20 else 0
      case BulkPricing(p) => if p.quantity > 10 then 10 else 0
      case BasePricing(_) => 0
    }
  }

  function CreatePricingStrategy(product: Product): (r: PricingStrategy)
    ensures r.product == product
    ensures r.Price() == CalculatePrice(product)
    ensures r.Discount() == GetDiscount(product)
  {
    match product.pricingType
    case "standard" => StandardPricing(product)
    case "premium" => PremiumPricing(product)
    case "seasonal" => SeasonalPricing(product)
    case "bulk" => BulkPricing(product)
    case _ => BasePricing(product)
  }

  datatype PriceView = PriceView(name: string, price: real, discount: int)

  function PriceRecord(product: Product): PriceView {
    PriceView(product.name, CalculatePrice(product), GetDiscount(product))
  }

  function PriceStrategy(s: PricingStrategy): PriceView {
    PriceView(s.product.name, s.Price(), s.Discount())
  }

  function Example3Before(products: seq<Product>): (r: seq<PriceView>)
    ensures |r| == |products|
    ensures forall k :: 0 <= k < |products| ==> r[k].name == products[k].name
  {
    Map(products, PriceRecord)
  }

  function Example3After(products: seq<Product>): (r: seq<PriceView>)
    ensures r == Example3Before(products)
  {
    var r := Map(Map(products, CreatePricingStrategy), PriceStrategy);
    assert forall k :: 0 <= k < |products| ==> r[k] == PriceRecord(products[k]);
    r
  }

  const Example3Products := [
    Product("Widget", 100.0, "standard", false, 0),
    Product("Gadget", 200.0, "premium", false, 0),
    Product("Apple", 50.0, "seasonal", true, 0),
    Product("Screws", 1.0, "bulk", false, 15)
  ]

  lemma Example3Fixture()
    ensures Example3After(Example3Products) == [
      PriceView("Widget", 100.0, 0),
      PriceView("Gadget", 300.0, 0),
      PriceView("Apple", 40.0, 20),
      PriceView("Screws", 0.9, 10)
    ]
  {
  }
}
