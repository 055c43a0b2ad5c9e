/** Strategy: processor objects that switch on a string field set by a
    setter, and processors that hold an interchangeable strategy object. The
    strategy hierarchies become datatypes; the base class, whose method
    throws, is a constructor of its own. */
module Strategy {
  import opened Js

  // ---------------------------------------------------------------------------
  // Example 1: payment processing

  datatype PaymentResult = PaymentResult(paymentMethod: string, amount: int, fee: real, total: real)

  function Charge(paymentMethod: string, amount: int, fee: real): PaymentResult {
    PaymentResult(paymentMethod, amount, fee, amount as real + fee)
  }

  /** The if-chain of the string-tagged `processPayment`; None stands for the
      `undefined` an unknown method falls through to. */
  function ProcessByMethod(paymentMethod: string, amount: int): (r: Option<PaymentResult>)
    ensures r.Some? <==> paymentMethod in {"creditCard", "paypal", "crypto"}
    ensures r.Some? ==> r.value.paymentMethod == paymentMethod && r.value.amount == amount
    ensures r.Some? ==> r.value.total == amount as real + r.value.fee
  {
    if paymentMethod == "creditCard" then Some(Charge("creditCard", amount, amount as real * 0.03))
    else if paymentMethod == "paypal" then Some(Charge("paypal", amount, amount as real * 0.029 + 0.30))
    else if paymentMethod == "crypto" then Some(Charge("crypto", amount, amount as real * 0.01))
    else None
  }

  class PaymentProcessorBefore {
    var paymentMethod: string

    constructor ()
      ensures paymentMethod == "creditCard"
    {
      paymentMethod := "creditCard";
    }

    method SetPaymentMethod(paymentMethod: string)
      modifies this
      ensures this.paymentMethod == paymentMethod
    {
      this.paymentMethod := paymentMethod;
    }

    function ProcessPayment(amount: int): Option<PaymentResult>
      reads this
    {
      ProcessByMethod(paymentMethod, amount)
    }
  }

  datatype PaymentStrategy = CreditCardStrategy | PayPalStrategy | CryptoStrategy | BasePaymentStrategy
  {
    /** The base class throws; each subclass builds its own result. */
    function Process(amount: int): (r: Result<PaymentResult>)
      ensures r.Err? <==> this == BasePaymentStrategy
      ensures r.Err? ==> r.message == "process() must be implemented by subclass"
      ensures r.Ok? ==> r.value.total == amount as real + r.value.fee && r.value.amount == amount
    {
      match this
      case CreditCardStrategy => Ok(Charge("creditCard", amount, amount as real * 0.03))
      case PayPalStrategy => Ok(Charge("paypal", amount, amount as real * 0.029 + 0.30))
      case CryptoStrategy => Ok(Charge("crypto", amount, amount as real * 0.01))
      case BasePaymentStrategy => Err("process() must be implemented by subclass")
    }
  }

  /** The strategy object that stands for a payment-method tag. */
  function PaymentStrategyFor(paymentMethod: string): Option<PaymentStrategy> {
    match paymentMethod
    case "creditCard" => Some(CreditCardStrategy)
    case "paypal" => Some(PayPalStrategy)
    case "crypto" => Some(CryptoStrategy)
    case _ => None
  }

  /** A tag and its strategy give the same result; the tags with no strategy
      are exactly those the string version returns `undefined` for. */
  lemma PaymentStrategiesAgree(paymentMethod: string, amount: int)
    ensures PaymentStrategyFor(paymentMethod).None? <==> ProcessByMethod(paymentMethod, amount).None?
    ensures PaymentStrategyFor(paymentMethod).Some? ==>
              PaymentStrategyFor(paymentMethod).value.Process(amount) == Ok(ProcessByMethod(paymentMethod, amount).value)
  {
  }

  /** PaymentStrategiesAgree for every tag at once. */
  lemma PaymentTagsAgree(amount: int)
    ensures forall tag :: PaymentStrategyFor(tag).Some? ==>
              PaymentStrategyFor(tag).value.Process(amount) == Ok(ProcessByMethod(tag, amount).value)
  {
    forall tag | PaymentStrategyFor(tag).Some?
      ensures PaymentStrategyFor(tag).value.Process(amount) == Ok(ProcessByMethod(tag, amount).value)
    {
      PaymentStrategiesAgree(tag, amount);
    }
  }

  class PaymentProcessor {
    var strategy: PaymentStrategy

    constructor (strategy: PaymentStrategy)
      ensures this.strategy == strategy
    {
      this.strategy := strategy;
    }

    method SetStrategy(strategy: PaymentStrategy)
      modifies this
      ensures this.strategy == strategy
    {
      this.strategy := strategy;
    }

    /** The processor answers as its strategy: the abstract base fails, every
        concrete strategy charges the amount plus its fee. */
    function ProcessPayment(amount: int): (r: Result<PaymentResult>)
      reads this
      ensures r.Err? <==> strategy == BasePaymentStrategy
      ensures r.Err? ==> r.message == "process() must be implemented by subclass"
      ensures r.Ok? ==> r.value.amount == amount && r.value.total == amount as real + r.value.fee
      ensures forall tag :: PaymentStrategyFor(tag) == Some(strategy) ==> r == Ok(ProcessByMethod(tag, amount).value)
    {
      PaymentTagsAgree(amount);
      strategy.Process(amount)
    }
  }

  /** The default tag is creditCard; each result carries the tag set before it. */
  method Example1Before() returns (results: seq<Option<PaymentResult>>)
    ensures results == [ProcessByMethod("creditCard", 100), ProcessByMethod("paypal", 50), ProcessByMethod("crypto", 200)]
    ensures forall k :: 0 <= k < |results| ==> results[k].Some?
  {
    var processor := new PaymentProcessorBefore();
    results := [];
    results := results + [processor.ProcessPayment(100)];
    processor.SetPaymentMethod("paypal");
    results := results + [processor.ProcessPayment(50)];
    processor.SetPaymentMethod("crypto");
    results := results + [processor.ProcessPayment(200)];
  }

  method Example1After() returns (results: seq<Result<PaymentResult>>)
    ensures results == [Ok(ProcessByMethod("creditCard", 100).value), Ok(ProcessByMethod("paypal", 50).value),
                        Ok(ProcessByMethod("crypto", 200).value)]
  {
    var processor := new PaymentProcessor(CreditCardStrategy);
    results := [];
    results := results + [processor.ProcessPayment(100)];
    processor.SetStrategy(PayPalStrategy);
    results := results + [processor.ProcessPayment(50)];
    processor.SetStrategy(CryptoStrategy);
    results := results + [processor.ProcessPayment(200)];
  }

  // ---------------------------------------------------------------------------
  // Example 2: compression algorithms

  datatype CompressionResult = CompressionResult(algorithm: string, original: int, compressed: int, ratio: string)

  /** `Math.floor(n * 0.6)`, `Math.floor(n * 0.5)` and `Math.floor(n * 0.4)` on
      a length n, in exact integer arithmetic. */
  function CompressByAlgorithm(algorithm: string, data: string): (r: Option<CompressionResult>)
    ensures r.Some? <==> algorithm in {"zip", "gzip", "bzip2"}
    ensures r.Some? ==> r.value.algorithm == algorithm && r.value.original == |data|
    ensures r.Some? ==> 0 <= r.value.compressed <= |data|
    ensures algorithm == "zip" ==> r.value.ratio == "40%"
    ensures algorithm == "gzip" ==> r.value.ratio == "50%"
    ensures algorithm == "bzip2" ==> r.value.ratio == "60%"
  {
    if algorithm == "zip" then Some(CompressionResult("zip", |data|, (|data| * 6) / 10, "40%"))
    else if algorithm == "gzip" then Some(CompressionResult("gzip", |data|, (|data| * 5) / 10, "50%"))
    else if algorithm == "bzip2" then Some(CompressionResult("bzip2", |data|, (|data| * 4) / 10, "60%"))
    else None
  }

  class FileCompressorBefore {
    var algorithm: string

    constructor ()
      ensures algorithm == "zip"
    {
      algorithm := "zip";
    }

    method SetAlgorithm(algorithm: string)
      modifies this
      ensures this.algorithm == algorithm
    {
      this.algorithm := algorithm;
    }

    function Compress(data: string): Option<CompressionResult>
      reads this
    {
      CompressByAlgorithm(algorithm, data)
    }
  }

  datatype CompressionStrategy = ZipStrategy | GzipStrategy | Bzip2Strategy | BaseCompressionStrategy
  {
    function Compress(data: string): (r: Result<CompressionResult>)
      ensures r.Err? <==> this == BaseCompressionStrategy
      ensures r.Err? ==> r.message == "compress() must be implemented by subclass"
      ensures r.Ok? ==> r.value.original == |data|
    {
      match this
      case ZipStrategy => Ok(CompressionResult("zip", |data|, (|data| * 6) / 10, "40%"))
      case GzipStrategy => Ok(CompressionResult("gzip", |data|, (|data| * 5) / 10, "50%"))
      case Bzip2Strategy => Ok(CompressionResult("bzip2", |data|, (|data| * 4) / 10, "60%"))
      case BaseCompressionStrategy => Err("compress() must be implemented by subclass")
    }
  }

  function CompressionStrategyFor(algorithm: string): Option<CompressionStrategy> {
    match algorithm
    case "zip" => Some(ZipStrategy)
    case "gzip" => Some(GzipStrategy)
    case "bzip2" => Some(Bzip2Strategy)
    case _ => None
  }

  lemma CompressionStrategiesAgree(algorithm: string, data: string)
    ensures CompressionStrategyFor(algorithm).None? <==> CompressByAlgorithm(algorithm, data).None?
    ensures CompressionStrategyFor(algorithm).Some? ==>
              CompressionStrategyFor(algorithm).value.Compress(data) == Ok(CompressByAlgorithm(algorithm, data).value)
  {
  }

  /** CompressionStrategiesAgree for every algorithm name at once. */
  lemma CompressionTagsAgree(data: string)
    ensures forall algorithm :: CompressionStrategyFor(algorithm).Some? ==>
              CompressionStrategyFor(algorithm).value.Compress(data) == Ok(CompressByAlgorithm(algorithm, data).value)
  {
    forall algorithm | CompressionStrategyFor(algorithm).Some?
      ensures CompressionStrategyFor(algorithm).value.Compress(data) == Ok(CompressByAlgorithm(algorithm, data).value)
    {
      CompressionStrategiesAgree(algorithm, data);
    }
  }

  class FileCompressor {
    var strategy: CompressionStrategy

    constructor (strategy: CompressionStrategy)
      ensures this.strategy == strategy
    {
      this.strategy := strategy;
    }

    method SetStrategy(strategy: CompressionStrategy)
      modifies this
      ensures this.strategy == strategy
    {
      this.strategy := strategy;
    }

    /** The compressor answers as its strategy: the abstract base fails,
        every concrete strategy reports the input's length and a smaller
        compressed size. */
    function Compress(data: string): (r: Result<CompressionResult>)
      reads this
      ensures r.Err? <==> strategy == BaseCompressionStrategy
      ensures r.Err? ==> r.message == "compress() must be implemented by subclass"
      ensures r.Ok? ==> r.value.original == |data| && 0 <= r.value.compressed <= |data|
      ensures forall algorithm :: CompressionStrategyFor(algorithm) == Some(strategy) ==>
                r == Ok(CompressByAlgorithm(algorithm, data).value)
    {
      CompressionTagsAgree(data);
      strategy.Compress(data)
    }
  }

  /** `'x'.repeat(1000)` */
  function Repeat(c: char, n: nat): (r: string)
    ensures |r| == n
  {
    seq(n, _ => c)
  }

  method Example2Before() returns (results: seq<Option<CompressionResult>>)
    ensures results == [Some(CompressionResult("zip", 1000, 600, "40%")),
                        Some(CompressionResult("gzip", 1000, 500, "50%")),
                        Some(CompressionResult("bzip2", 1000, 400, "60%"))]
  {
    var compressor := new FileCompressorBefore();
    var data := Repeat('x', 1000);
    results := [];
    results := results + [compressor.Compress(data)];
    compressor.SetAlgorithm("gzip");
    results := results + [compressor.Compress(data)];
    compressor.SetAlgorithm("bzip2");
    results := results + [compressor.Compress(data)];
  }

  method Example2After() returns (results: seq<Result<CompressionResult>>)
    ensures results == [Ok(CompressionResult("zip", 1000, 600, "40%")),
                        Ok(CompressionResult("gzip", 1000, 500, "50%")),
                        Ok(CompressionResult("bzip2", 1000, 400, "60%"))]
  {
    var compressor := new FileCompressor(ZipStrategy);
    var data := Repeat('x', 1000);
    results := [];
    results := results + [compressor.Compress(data)];
    compressor.SetStrategy(GzipStrategy);
    results := results + [compressor.Compress(data)];
    compressor.SetStrategy(Bzip2Strategy);
    results := results + [compressor.Compress(data)];
  }

  // ---------------------------------------------------------------------------
  // Example 3: shipping cost calculator

  datatype ShippingQuote = ShippingQuote(shippingMethod: string, cost: real, estimatedDays: int)

  function CostByMethod(shippingMethod: string, weight: int, distance: int): (r: Option<ShippingQuote>)
    ensures r.Some? <==> shippingMethod in {"standard", "express", "overnight"}
    ensures r.Some? ==> r.value.shippingMethod == shippingMethod
    ensures shippingMethod == "standard" ==> r.value.estimatedDays == 5
    ensures shippingMethod == "express" ==> r.value.estimatedDays == 2
    ensures shippingMethod == "overnight" ==> r.value.estimatedDays == 1
  {
    if shippingMethod == "standard" then Some(ShippingQuote("standard", weight as real * 0.5 + distance as real * 0.1, 5))
    else if shippingMethod == "express" then Some(ShippingQuote("express", weight as real * 1.0 + distance as real * 0.2, 2))
    else if shippingMethod == "overnight" then Some(ShippingQuote("overnight", weight as real * 2.0 + distance as real * 0.5, 1))
    else None
  }

  class ShippingCalculatorBefore {
    var shippingMethod: string

    constructor ()
      ensures shippingMethod == "standard"
    {
      shippingMethod := "standard";
    }

    method SetMethod(shippingMethod: string)
      modifies this
      ensures this.shippingMethod == shippingMethod
    {
      this.shippingMethod := shippingMethod;
    }

    function CalculateCost(weight: int, distance: int): Option<ShippingQuote>
      reads this
    {
      CostByMethod(shippingMethod, weight, distance)
    }
  }

  datatype ShippingStrategy = StandardShipping | ExpressShipping | OvernightShipping | BaseShippingStrategy
  {
    function CalculateCost(weight: int, distance: int): (r: Result<ShippingQuote>)
      ensures r.Err? <==> this == BaseShippingStrategy
      ensures r.Err? ==> r.message == "calculateCost() must be implemented by subclass"
    {
      match this
      case StandardShipping => Ok(ShippingQuote("standard", weight as real * 0.5 + distance as real * 0.1, 5))
      case ExpressShipping => Ok(ShippingQuote("express", weight as real * 1.0 + distance as real * 0.2, 2))
      case OvernightShipping => Ok(ShippingQuote("overnight", weight as real * 2.0 + distance as real * 0.5, 1))
      case BaseShippingStrategy => Err("calculateCost() must be implemented by subclass")
    }
  }

  function ShippingStrategyFor(shippingMethod: string): Option<ShippingStrategy> {
    match shippingMethod
    case "standard" => Some(StandardShipping)
    case "express" => Some(ExpressShipping)
    case "overnight" => Some(OvernightShipping)
    case _ => None
  }

  lemma ShippingStrategiesAgree(shippingMethod: string, weight: int, distance: int)
    ensures ShippingStrategyFor(shippingMethod).None? <==> CostByMethod(shippingMethod, weight, distance).None?
    ensures ShippingStrategyFor(shippingMethod).Some? ==>
              ShippingStrategyFor(shippingMethod).value.CalculateCost(weight, distance) == Ok(CostByMethod(shippingMethod, weight, distance).value)
  {
  }

  /** ShippingStrategiesAgree for every method name at once. */
  lemma ShippingTagsAgree(weight: int, distance: int)
    ensures forall shippingMethod :: ShippingStrategyFor(shippingMethod).Some? ==>
              ShippingStrategyFor(shippingMethod).value.CalculateCost(weight, distance)
                == Ok(CostByMethod(shippingMethod, weight, distance).value)
  {
    forall shippingMethod | ShippingStrategyFor(shippingMethod).Some?
      ensures ShippingStrategyFor(shippingMethod).value.CalculateCost(weight, distance)
                == Ok(CostByMethod(shippingMethod, weight, distance).value)
    {
      ShippingStrategiesAgree(shippingMethod, weight, distance);
    }
  }

  class ShippingCalculator {
    var strategy: ShippingStrategy

    constructor (strategy: ShippingStrategy)
      ensures this.strategy == strategy
    {
      this.strategy := strategy;
    }

    method SetStrategy(strategy: ShippingStrategy)
      modifies this
      ensures this.strategy == strategy
    {
      this.strategy := strategy;
    }

    /** The calculator answers as its strategy: the abstract base fails,
        every concrete strategy quotes as the string-tag version does. */
    function CalculateCost(weight: int, distance: int): (r: Result<ShippingQuote>)
      reads this
      ensures r.Err? <==> strategy == BaseShippingStrategy
      ensures r.Err? ==> r.message == "calculateCost() must be implemented by subclass"
      ensures forall shippingMethod :: ShippingStrategyFor(shippingMethod) == Some(strategy) ==>
                r == Ok(CostByMethod(shippingMethod, weight, distance).value)
    {
      ShippingTagsAgree(weight, distance);
      strategy.CalculateCost(weight, distance)
    }
  }

  method Example3Before() returns (results: seq<Option<ShippingQuote>>)
    ensures results == [Some(ShippingQuote("standard", 15.0, 5)), Some(ShippingQuote("express", 30.0, 2)),
                        Some(ShippingQuote("overnight", 70.0, 1))]
  {
    var calculator := new ShippingCalculatorBefore();
    results := [];
    results := results + [calculator.CalculateCost(10, 100)];
    calculator.SetMethod("express");
    results := results + [calculator.CalculateCost(10, 100)];
    calculator.SetMethod("overnight");
    results := results + [calculator.CalculateCost(10, 100)];
  }

  method Example3After() returns (results: seq<Result<ShippingQuote>>)
    ensures results == [Ok(ShippingQuote("standard", 15.0, 5)), Ok(ShippingQuote("express", 30.0, 2)),
                        Ok(ShippingQuote("overnight", 70.0, 1))]
  {
    var calculator := new ShippingCalculator(StandardShipping);
    results := [];
    results := results + [calculator.CalculateCost(10, 100)];
    calculator.SetStrategy(ExpressShipping);
    results := results + [calculator.CalculateCost(10, 100)];
    calculator.SetStrategy(OvernightShipping);
    results := results + [calculator.CalculateCost(10, 100)];
  }
}
