/** The billing records: pricing kinds, price tiers, a model's pricing policy, one usage
    record and the per-task summary, with their defaults, and their construction from a
    decoded configuration mapping (pydantic validation). */
module BillingModels {
  import opened Wrappers
  import opened Dicts
  import opened JsonValues

  datatype PricingType = Fixed | Tiered | TieredComplex | Free

  /** The enum's string value, as written in configuration files. */
  function PricingTypeWire(t: PricingType): string {
    match t
    case Fixed => "fixed"
    case Tiered => "tiered"
    case TieredComplex => "tiered_complex"
    case Free => "free"
  }

  /** `PricingType(s)`: only the four exact values are accepted (`ValueError` otherwise). */
  function ParsePricingType(s: string): (r: Option<PricingType>)
    ensures r.Some? ==> PricingTypeWire(r.value) == s
  {
    if s == "fixed" then Some(Fixed)
    else if s == "tiered" then Some(Tiered)
    else if s == "tiered_complex" then Some(TieredComplex)
    else if s == "free" then Some(Free)
    else None
  }

  lemma PricingTypeRoundTrip(t: PricingType)
    ensures ParsePricingType(PricingTypeWire(t)) == Some(t)
  {
  }

  /** A rung of a simple ladder; `maxTokens` `None` is open-ended. Prices are per million tokens. */
  datatype PriceTier = PriceTier(minTokens: int, maxTokens: Option<int>, inputPrice: real, outputPrice: real)

  /** A tier of a combined input/output table; `None` bounds do not restrict. */
  datatype ComplexPriceTier = ComplexPriceTier(
    inputMin: int, inputMax: Option<int>,
    outputMin: Option<int>, outputMax: Option<int>,
    inputPrice: real, outputPrice: real)

  datatype ModelPricing = ModelPricing(
    vendor: string,
    model: string,
    displayName: Option<string>,
    pricingType: PricingType,
    inputPricePerMillion: real,
    outputPricePerMillion: real,
    tiers: seq<PriceTier>,
    complexTiers: seq<ComplexPriceTier>,
    freeInputTokens: int,
    freeOutputTokens: int,
    currency: string,
    lastUpdated: Option<string>,
    notes: Option<string>)

  datatype UsageRecord = UsageRecord(
    timestamp: string,
    provider: string,
    model: string,
    promptTokens: int,
    completionTokens: int,
    inputCost: real,
    outputCost: real,
    totalCost: real,
    currency: string)

  datatype TaskBillingSummary = TaskBillingSummary(
    provider: string,
    model: string,
    totalPromptTokens: int,
    totalCompletionTokens: int,
    totalInputCost: real,
    totalOutputCost: real,
    totalCost: real,
    stepCount: int,
    currency: string,
    records: seq<UsageRecord>)

  /** A `UsageRecord` built without a currency gets "USD". */
  function NewUsageRecord(timestamp: string, provider: string, model: string, promptTokens: int,
                          completionTokens: int, inputCost: real, outputCost: real, totalCost: real): (r: UsageRecord)
    ensures r.currency == "USD"
  {
    UsageRecord(timestamp, provider, model, promptTokens, completionTokens, inputCost, outputCost, totalCost, "USD")
  }

  /** A summary built without currency or records gets "USD" and `[]`. */
  function NewSummary(provider: string, model: string, totalPromptTokens: int, totalCompletionTokens: int,
                      totalInputCost: real, totalOutputCost: real, totalCost: real, stepCount: int): (r: TaskBillingSummary)
    ensures r.currency == "USD" && r.records == []
  {
    TaskBillingSummary(provider, model, totalPromptTokens, totalCompletionTokens,
                       totalInputCost, totalOutputCost, totalCost, stepCount, "USD", [])
  }

  // Field validation, one field kind per function. A missing key takes the default,
  // a value of the wrong kind is a ValidationError. Extra keys are ignored.

  function IntField(d: seq<(string, Json)>, key: string, default: int): Result<int, PyError> {
    match Lookup<string, Json>(d, key)
    case None => Ok(default)
    case Some(JInt(n)) => Ok(n)
    case Some(_) => Err(ValidationError)
  }

  function OptIntField(d: seq<(string, Json)>, key: string): Result<Option<int>, PyError> {
    match Lookup<string, Json>(d, key)
    case None => Ok(None)
    case Some(JNull) => Ok(None)
    case Some(JInt(n)) => Ok(Some(n))
    case Some(_) => Err(ValidationError)
  }

  function RealField(d: seq<(string, Json)>, key: string, default: real): Result<real, PyError> {
    match Lookup<string, Json>(d, key)
    case None => Ok(default)
    case Some(JInt(n)) => Ok(n as real)
    case Some(JFloat(f)) => Ok(f)
    case Some(_) => Err(ValidationError)
  }

  function StrField(d: seq<(string, Json)>, key: string): Result<string, PyError> {
    match Lookup<string, Json>(d, key)
    case Some(JString(s)) => Ok(s)
    case _ => Err(ValidationError)
  }

  function StrFieldOr(d: seq<(string, Json)>, key: string, default: string): Result<string, PyError> {
    match Lookup<string, Json>(d, key)
    case None => Ok(default)
    case Some(JString(s)) => Ok(s)
    case Some(_) => Err(ValidationError)
  }

  function OptStrField(d: seq<(string, Json)>, key: string): Result<Option<string>, PyError> {
    match Lookup<string, Json>(d, key)
    case None => Ok(None)
    case Some(JNull) => Ok(None)
    case Some(JString(s)) => Ok(Some(s))
    case Some(_) => Err(ValidationError)
  }

  /** `PriceTier(**tier)`: a mapping is required (`TypeError` otherwise). */
  function PriceTierFromJson(j: Json): Result<PriceTier, PyError> {
    if !j.JObject? then Err(TypeError)
    else
      var minTokens :- IntField(j.fields, "min_tokens", 0);
      var maxTokens :- OptIntField(j.fields, "max_tokens");
      var inputPrice :- RealField(j.fields, "input_price", 0.0);
      var outputPrice :- RealField(j.fields, "output_price", 0.0);
      Ok(PriceTier(minTokens, maxTokens, inputPrice, outputPrice))
  }

  /** `ComplexPriceTier(**tier)` */
  function ComplexPriceTierFromJson(j: Json): Result<ComplexPriceTier, PyError> {
    if !j.JObject? then Err(TypeError)
    else
      var inputMin :- IntField(j.fields, "input_min", 0);
      var inputMax :- OptIntField(j.fields, "input_max");
      var outputMin :- OptIntField(j.fields, "output_min");
      var outputMax :- OptIntField(j.fields, "output_max");
      var inputPrice :- RealField(j.fields, "input_price", 0.0);
      var outputPrice :- RealField(j.fields, "output_price", 0.0);
      Ok(ComplexPriceTier(inputMin, inputMax, outputMin, outputMax, inputPrice, outputPrice))
  }

  /** `ModelPricing(**fields)` once tiers, complex tiers and the kind are already objects:
      those three arrive converted (or absent, then defaulted by the caller), the rest is
      validated here. `vendor` and `model` are required. */
  function ModelPricingFromFields(d: seq<(string, Json)>, pricingType: PricingType,
                                  tiers: seq<PriceTier>, complexTiers: seq<ComplexPriceTier>): (r: Result<ModelPricing, PyError>)
    ensures r.Ok? ==> r.value.pricingType == pricingType && r.value.tiers == tiers && r.value.complexTiers == complexTiers
  {
    var vendor :- StrField(d, "vendor");
    var model :- StrField(d, "model");
    var displayName :- OptStrField(d, "display_name");
    var inputPrice :- RealField(d, "input_price_per_million", 0.0);
    var outputPrice :- RealField(d, "output_price_per_million", 0.0);
    var freeInput :- IntField(d, "free_input_tokens", 0);
    var freeOutput :- IntField(d, "free_output_tokens", 0);
    var currency :- StrFieldOr(d, "currency", "USD");
    var lastUpdated :- OptStrField(d, "last_updated");
    var notes :- OptStrField(d, "notes");
    Ok(ModelPricing(vendor, model, displayName, pricingType, inputPrice, outputPrice, tiers, complexTiers,
                    freeInput, freeOutput, currency, lastUpdated, notes))
  }

  /** An empty mapping is the default tier: from 0, open-ended, free. */
  lemma PriceTierDefaults()
    ensures PriceTierFromJson(JObject([])) == Ok(PriceTier(0, None, 0.0, 0.0))
  {
  }

  /** An empty mapping gives the default complex tier: input from 0, nothing else bounded. */
  lemma ComplexPriceTierDefaults()
    ensures ComplexPriceTierFromJson(JObject([])) == Ok(ComplexPriceTier(0, None, None, None, 0.0, 0.0))
  {
  }

  /** Only vendor and model given: no display name, zero prices and allowances, no tiers,
      "USD", no update date or notes. */
  lemma ModelPricingDefaults(vendor: string, model: string, t: PricingType)
    ensures ModelPricingFromFields([("vendor", JString(vendor)), ("model", JString(model))], t, [], [])
         == Ok(ModelPricing(vendor, model, None, t, 0.0, 0.0, [], [], 0, 0, "USD", None, None))
  {
    var d := [("vendor", JString(vendor)), ("model", JString(model))];
    assert Lookup(d, "vendor") == Some(JString(vendor));
    assert Lookup(d, "model") == Some(JString(model));
    assert Lookup(d, "display_name") == None by { assert d[0].0 != "display_name" && d[1].0 != "display_name"; }
    assert Lookup(d, "input_price_per_million") == None;
    assert Lookup(d, "output_price_per_million") == None;
    assert Lookup(d, "free_input_tokens") == None;
    assert Lookup(d, "free_output_tokens") == None;
    assert Lookup(d, "currency") == None;
    assert Lookup(d, "last_updated") == None;
    assert Lookup(d, "notes") == None;
  }

  /** Without a vendor or a model there is no pricing. */
  lemma ModelPricingNeedsVendorAndModel(d: seq<(string, Json)>, t: PricingType,
                                        tiers: seq<PriceTier>, complexTiers: seq<ComplexPriceTier>)
    requires !HasKey(d, "vendor") || !HasKey(d, "model")
    ensures ModelPricingFromFields(d, t, tiers, complexTiers) == Err(ValidationError)
  {
  }
}
