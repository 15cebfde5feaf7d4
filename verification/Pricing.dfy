/** Catalogue prices (ai-runtime/src/openrouter_pricing.rs) and what a ceiling built from them
    covers: rates, reservations and receipts are all rounded up, by less than a known amount. */
module Pricing {
  import opened Base
  import opened Budget
  import opened Externals
  import opened JsonValue
  import opened Money
  import Steps

  datatype PricingSnapshot = PricingSnapshot(
    model: string, generation: Uuid, revision: string, receivedAt: Instant, expiresAt: Instant,
    inputRate: u64, outputRate: u64)

  predicate Names(row: Json, model: string) {
    AsString(Get(row, "id")) == Some(model)
  }

  /** Catalogue prices are decimal texts of dollars per token. */
  function Rate(prices: map<string, Json>, name: string): Result<u64, RuntimeError> {
    if name !in prices then Err(CapabilityNotVerified)
    else if !prices[name].Str? then Err(Protocol)
    else ScaledDecimal(prices[name], 9)
  }

  predicate Readable(value: Json) {
    value.Str? && ScaledDecimal(value, 9).Ok?
  }

  /** Any other price must be zero, or a cache price no higher than the input rate. */
  predicate Covered(name: string, amount: nat, input: u64) {
    || name == "prompt" || name == "completion" || amount == 0
    || ((name == "input_cache_read" || name == "input_cache_write") && amount <= input)
  }

  function CheckDimensions(prices: map<string, Json>, input: u64): Check<RuntimeError> {
    if exists name :: name in prices && name != "prompt" && name != "completion" && !Readable(prices[name])
       then Fail(Protocol)
    else if exists name :: name in prices && Readable(prices[name])
                           && !Covered(name, ScaledDecimal(prices[name], 9).value, input)
    then Fail(CapabilityNotVerified)
    else Pass
  }

  function Snapshot(lib: Libraries, pricing: Json, generation: Uuid, model: string, now: Instant)
    : Result<PricingSnapshot, RuntimeError>
  {
    if !pricing.Obj? then Err(CapabilityNotVerified)
    else
      var prices := pricing.fields;
      var input :- Rate(prices, "prompt");
      var output :- Rate(prices, "completion");
      if input == 0 || output == 0 then Err(CapabilityNotVerified)
      else if CheckDimensions(prices, input).Fail? then Err(CheckDimensions(prices, input).error)
      else Ok(PricingSnapshot(model, generation, "openrouter-catalog-v1:" + lib.catalogDigest(pricing),
                              now, now + FIFTEEN_MINUTES, input, output))
  }

  /** The position of the first row of a model. */
  function FirstRow(rows: seq<Json>, model: string): (k: nat)
    ensures k <= |rows|
  {
    if rows == [] || Names(rows[0], model) then 0 else 1 + FirstRow(rows[1..], model)
  }

  function FromCatalog(lib: Libraries, data: Json, generation: Uuid, model: string, now: Instant)
    : Result<PricingSnapshot, RuntimeError>
  {
    if !Get(data, "data").Arr? then Err(Protocol)
    else
      var rows := Get(data, "data").items;
      var k := FirstRow(rows, model);
      if k == |rows| then Err(CapabilityNotVerified)
      else if FirstRow(rows[k + 1..], model) < |rows| - k - 1 || generation == NIL then Err(Protocol)
      else Snapshot(lib, Get(rows[k], "pricing"), generation, model, now)
  }

  function Estimate(s: PricingSnapshot, input: u32, output: u32, now: Instant): Result<CostEstimate, RuntimeError> {
    var cost := CostEstimate(s.revision, s.model, s.generation, input, output, s.inputRate, s.outputRate, s.receivedAt,
                             s.expiresAt);
    match Ceiling(cost, now)
    case Err(e) => Err(RuntimeError.Budget(e))
    case Ok(_) => Ok(cost)
  }

  // ----- one unambiguous row -----

  lemma {:induction false} FirstRowFound(rows: seq<Json>, model: string)
    ensures var k := FirstRow(rows, model);
            && (forall i :: 0 <= i < k ==> !Names(rows[i], model))
            && (k < |rows| ==> Names(rows[k], model))
  {
    hide Names;
    if rows != [] && !Names(rows[0], model) {
      FirstRowFound(rows[1..], model);
    }
  }

  /** A snapshot is taken from the only row that names the model. */
  lemma OneRowPerModel(lib: Libraries, data: Json, generation: Uuid, model: string, now: Instant)
    requires FromCatalog(lib, data, generation, model, now).Ok?
    ensures Get(data, "data").Arr?
    ensures var rows := Get(data, "data").items;
            exists k :: && 0 <= k < |rows|
                        && (forall i :: 0 <= i < |rows| ==> (Names(rows[i], model) <==> i == k))
                        && FromCatalog(lib, data, generation, model, now) ==
                           Snapshot(lib, Get(rows[k], "pricing"), generation, model, now)
  {
    hide Names, Snapshot;
    var rows := Get(data, "data").items;
    var k := FirstRow(rows, model);
    FirstRowFound(rows, model);
    FirstRowFound(rows[k + 1..], model);
    forall i | 0 <= i < |rows| ensures Names(rows[i], model) <==> i == k {
      if i > k {
        assert rows[i] == rows[k + 1..][i - k - 1];
      }
    }
  }

  // ----- the bounds -----

  /** A price text, as the exact number of dollars per token it denotes. */
  ghost predicate Priced(prices: map<string, Json>, name: string, n: Numeral) {
    name in prices && WellFormed(n) && prices[name] == Str(Render(n))
  }

  lemma RateIsCeiling(prices: map<string, Json>, name: string, n: Numeral)
    requires Priced(prices, name, n) && Readable(prices[name])
    ensures IsCeiling(ScaledDecimal(prices[name], 9).value, Meaning(n) * TenTo(9))
  {
    hide ScaledText, ScaledAmount, Meaning, Render, WellFormed;
    NumeralRead(n, 9);
    var read := ScaledText(Render(n), 9);
    ScaledAmountAccepted(n, 9, read.value);
    assert read == Ok(read.value) && ScaledDecimal(prices[name], 9) == read;
    assert Accepted(n, 9, read.value);
  }

  // ----- what is accepted -----

  /** A price text that reads as this many nanodollars per token. */
  predicate Reads(prices: map<string, Json>, name: string, rate: u64) {
    name in prices && prices[name].Str? && ScaledDecimal(prices[name], 9) == Ok(rate)
  }

  /** The prices are of tokens only: input and output have one, cached input costs no more than input,
      and everything else is free. */
  predicate TokenPrices(prices: map<string, Json>, input: u64, output: u64) {
    && input > 0 && output > 0 && Reads(prices, "prompt", input) && Reads(prices, "completion", output)
    && forall name :: name in prices && name != "prompt" && name != "completion" ==>
         && prices[name].Str? && ScaledDecimal(prices[name], 9).Ok?
         && var amount := ScaledDecimal(prices[name], 9).value;
            amount == 0 || ((name == "input_cache_read" || name == "input_cache_write") && amount <= input)
  }

  lemma DimensionsAre(prices: map<string, Json>, input: u64, output: u64)
    requires input > 0 && output > 0 && Reads(prices, "prompt", input) && Reads(prices, "completion", output)
    ensures CheckDimensions(prices, input) == Pass <==> TokenPrices(prices, input, output)
  {
    hide ScaledDecimal;
    if CheckDimensions(prices, input) == Pass {
      forall name | name in prices && name != "prompt" && name != "completion"
        ensures Readable(prices[name]) && Covered(name, ScaledDecimal(prices[name], 9).value, input)
      {
      }
    }
    if TokenPrices(prices, input, output) {
      forall name | name in prices ensures Readable(prices[name]) {
      }
    }
  }

  /** A snapshot is taken exactly of token prices; it holds their rates for fifteen minutes. */
  lemma SnapshotAccepted(lib: Libraries, pricing: Json, generation: Uuid, model: string, now: Instant)
    ensures var r := Snapshot(lib, pricing, generation, model, now);
            && (r.Ok? <==> pricing.Obj? && exists i, o :: TokenPrices(pricing.fields, i, o))
            && (r.Ok? ==>
                  && TokenPrices(pricing.fields, r.value.inputRate, r.value.outputRate)
                  && r.value.model == model && r.value.generation == generation
                  && r.value.receivedAt == now && r.value.expiresAt == now + 900_000_000_000)
  {
    hide ScaledDecimal, CheckDimensions, TokenPrices;
    if pricing.Obj? {
      var prices := pricing.fields;
      var input, output := Rate(prices, "prompt"), Rate(prices, "completion");
      if input.Ok? && output.Ok? && input.value > 0 && output.value > 0 {
        DimensionsAre(prices, input.value, output.value);
      }
      if i, o :| TokenPrices(prices, i, o) {
        PricesRead(prices, i, o);
      }
    }
  }

  lemma PricesRead(prices: map<string, Json>, input: u64, output: u64)
    requires TokenPrices(prices, input, output)
    ensures input > 0 && output > 0 && Rate(prices, "prompt") == Ok(input) && Rate(prices, "completion") == Ok(output)
  {
    hide ScaledDecimal;
  }

  /** The terms of an estimate are those of the snapshot, and it is given exactly while they are fresh. */
  lemma EstimateAccepted(s: PricingSnapshot, input: u32, output: u32, now: Instant)
    ensures var cost := CostEstimate(s.revision, s.model, s.generation, input, output, s.inputRate, s.outputRate,
                                     s.receivedAt, s.expiresAt);
            && (Estimate(s, input, output, now).Ok? <==>
                  Quoted(cost, now) && Nanos(cost) <= 1000 * 0xFFFF_FFFF_FFFF_FFFF)
            && (Estimate(s, input, output, now).Ok? ==> Estimate(s, input, output, now) == Ok(cost))
  {
    hide Ceiling, Nanos, Quoted;
    CeilingCovers(CostEstimate(s.revision, s.model, s.generation, input, output, s.inputRate, s.outputRate,
                               s.receivedAt, s.expiresAt), now);
  }

  predicate Says(value: Json, key: string, expected: Json) {
    value.Obj? && key in value.fields && value.fields[key] == expected
  }

  /** A billing record is accepted exactly if it is of the generation and model asked for, streamed, on
      the broker's own key, cancelled or with a known reason to end, and its total can be read. */
  lemma BillsAccepted(value: Json, id: string, model: string)
    ensures Steps.ParseGeneration(value, id, model).Ok? <==>
            && value.Obj? && "data" in value.fields
            && var data := value.fields["data"];
            && Says(data, "id", Str(id)) && Says(data, "model", Str(model))
            && Says(data, "streamed", Bool(true)) && Says(data, "is_byok", Bool(false))
            && (Says(data, "cancelled", Bool(true))
                || (Says(data, "cancelled", Bool(false))
                    && exists reason :: && reason in {"stop", "tool_calls", "length", "content_filter", "error"}
                                        && Says(data, "finish_reason", Str(reason))))
            && ScaledDecimal(Get(data, "total_cost"), 6).Ok?
  {
    hide ScaledDecimal;
    var data := Get(value, "data");
    if data.Obj? && "finish_reason" in data.fields && data.fields["finish_reason"].Str? {
      assert Says(data, "finish_reason", Str(data.fields["finish_reason"].chars));
    }
  }

  // ----- bills -----

  /** Tokens that the provider bills: input at the full rate, read from and written to its
      cache, and output. */
  datatype Bill = Bill(full: nat, cacheRead: nat, cacheWrite: nat, output: nat)

  /** Exact prices in dollars per token. */
  datatype Prices = Prices(input: real, cacheRead: real, cacheWrite: real, output: real)

  /** What a bill amounts to, in microdollars. */
  function Cost(b: Bill, p: Prices): real {
    ((b.full as real) * p.input + (b.cacheRead as real) * p.cacheRead + (b.cacheWrite as real) * p.cacheWrite
     + (b.output as real) * p.output) * 1000000.0
  }

  /** The prices that a catalogue row states, a cache price that is not listed being zero. */
  ghost predicate Stated(prices: map<string, Json>, p: Prices) {
    && (exists n :: Priced(prices, "prompt", n) && Meaning(n) == p.input)
    && (exists n :: Priced(prices, "completion", n) && Meaning(n) == p.output)
    && (if "input_cache_read" in prices
        then exists n :: Priced(prices, "input_cache_read", n) && Meaning(n) == p.cacheRead
        else p.cacheRead == 0.0)
    && (if "input_cache_write" in prices
        then exists n :: Priced(prices, "input_cache_write", n) && Meaning(n) == p.cacheWrite
        else p.cacheWrite == 0.0)
  }

  lemma BillionToken()
    ensures TenTo(9) == 1000000000.0
  {
    assert TenTo(2) == 100.0;
    assert TenTo(4) == 10000.0;
    assert TenTo(6) == 1000000.0;
    assert TenTo(8) == 100000000.0;
  }

  /** Prices against the rates of the snapshot, in nanodollars. */
  predicate Bounds(p: Prices, input: nat, output: nat) {
    && p.input * 1000000000.0 <= input as real < p.input * 1000000000.0 + 1.0
    && p.output * 1000000000.0 <= output as real < p.output * 1000000000.0 + 1.0
    && p.cacheRead * 1000000000.0 <= input as real && p.cacheWrite * 1000000000.0 <= input as real
  }

  lemma SnapshotBounds(lib: Libraries, pricing: Json, generation: Uuid, model: string, now: Instant, p: Prices)
    requires Snapshot(lib, pricing, generation, model, now).Ok? && Stated(pricing.fields, p)
    ensures var s := Snapshot(lib, pricing, generation, model, now).value; Bounds(p, s.inputRate, s.outputRate)
  {
    hide ScaledDecimal, TenTo, Meaning, Render, WellFormed;
    var prices := pricing.fields;
    var s := Snapshot(lib, pricing, generation, model, now).value;
    BillionToken();
    var i :| Priced(prices, "prompt", i) && Meaning(i) == p.input;
    RateIsCeiling(prices, "prompt", i);
    var o :| Priced(prices, "completion", o) && Meaning(o) == p.output;
    RateIsCeiling(prices, "completion", o);
    CacheBound(prices, "input_cache_read", s.inputRate, p.cacheRead);
    CacheBound(prices, "input_cache_write", s.inputRate, p.cacheWrite);
  }

  lemma CacheBound(prices: map<string, Json>, name: string, input: u64, price: real)
    requires CheckDimensions(prices, input).Pass? && (name == "input_cache_read" || name == "input_cache_write")
    requires if name in prices then exists n :: Priced(prices, name, n) && Meaning(n) == price else price == 0.0
    ensures price * 1000000000.0 <= input as real
  {
    hide ScaledDecimal, TenTo, Meaning, Render, WellFormed;
    BillionToken();
    if name in prices {
      var n :| Priced(prices, name, n) && Meaning(n) == price;
      assert Readable(prices[name]);
      RateIsCeiling(prices, name, n);
      assert Covered(name, ScaledDecimal(prices[name], 9).value, input);
    }
  }

  lemma ProductsBelow(x: real, a: real, b: real)
    requires x >= 0.0 && a <= b
    ensures x * a <= x * b
  {
  }

  lemma ProductLess(product: real, x: real, a: real, b: real)
    requires x > 0.0 && a < b + 1.0 && product == x * a
    ensures product < x * b + x
  {
    Positive(x, b + 1.0 - a);
    Expand(x, a, b);
  }

  lemma Positive(x: real, gap: real)
    requires x > 0.0 && gap > 0.0
    ensures x * gap > 0.0
  {
  }

  lemma Expand(x: real, a: real, b: real)
    ensures x * (b + 1.0 - a) == x * b + x - x * a
  {
  }

  lemma Regroup(x: real, price: real)
    ensures x * (price * 1000000000.0) == x * price * 1000000000.0
  {
  }

  lemma WholeProduct(x: nat, rate: nat)
    ensures (x * rate) as real == (x as real) * (rate as real)
  {
  }

  lemma ScaledUpTo(x: nat, price: real, rate: nat)
    requires price * 1000000000.0 <= rate as real
    ensures (x as real) * price * 1000000000.0 <= (x * rate) as real
  {
    ProductsBelow(x as real, price * 1000000000.0, rate as real);
    Regroup(x as real, price);
    WholeProduct(x, rate);
  }

  lemma ScaledBelow(x: nat, price: real, rate: nat)
    requires x > 0 && (rate as real) < price * 1000000000.0 + 1.0
    ensures (x * rate) as real < (x as real) * price * 1000000000.0 + x as real
  {
    var tokens, exact, product := x as real, price * 1000000000.0, (x * rate) as real;
    WholeProduct(x, rate);
    ProductLess(product, tokens, rate as real, exact);
    Regroup(tokens, price);
  }

  lemma TokensWithin(full: nat, read: nat, write: nat, input: nat, rate: nat)
    requires full + read + write <= input
    ensures full * rate + read * rate + write * rate <= input * rate
  {
    ProductAtMost(full + read + write, input, rate, rate);
    assert (full + read + write) * rate == full * rate + read * rate + write * rate;
  }

  lemma CostBelow(b: Bill, p: Prices, input: nat, output: nat, total: nat)
    requires (b.full as real) * p.input * 1000000000.0 <= (b.full * input) as real
    requires (b.cacheRead as real) * p.cacheRead * 1000000000.0 <= (b.cacheRead * input) as real
    requires (b.cacheWrite as real) * p.cacheWrite * 1000000000.0 <= (b.cacheWrite * input) as real
    requires (b.output as real) * p.output * 1000000000.0 <= (b.output * output) as real
    requires b.full * input + b.cacheRead * input + b.cacheWrite * input + b.output * output <= total
    ensures Cost(b, p) * 1000.0 <= total as real
  {
  }

  lemma BillWithin(b: Bill, p: Prices, x: nat, y: nat, input: nat, output: nat)
    requires Bounds(p, input, output)
    requires b.full + b.cacheRead + b.cacheWrite <= x && b.output <= y
    ensures Cost(b, p) * 1000.0 <= (x * input + y * output) as real
  {
    hide Cost;
    ScaledUpTo(b.full, p.input, input);
    ScaledUpTo(b.cacheRead, p.cacheRead, input);
    ScaledUpTo(b.cacheWrite, p.cacheWrite, input);
    ScaledUpTo(b.output, p.output, output);
    TokensWithin(b.full, b.cacheRead, b.cacheWrite, x, input);
    ProductAtMost(b.output, y, output, output);
    CostBelow(b, p, input, output, x * input + y * output);
  }

  lemma CostAbove(x: nat, y: nat, p: Prices, input: nat, output: nat)
    requires (x * input) as real < (x as real) * p.input * 1000000000.0 + x as real
    requires (y * output) as real < (y as real) * p.output * 1000000000.0 + y as real
    ensures (x * input + y * output) as real < Cost(Bill(x, 0, 0, y), p) * 1000.0 + (x + y) as real
  {
  }

  /** The estimate of a snapshot, with its ceiling in nanodollars. */
  lemma EstimateCeiling(s: PricingSnapshot, input: u32, output: u32, now: Instant)
    requires Estimate(s, input, output, now).Ok?
    ensures Ceiling(Estimate(s, input, output, now).value, now).Ok? && input > 0 && output > 0
    ensures var c, total := Ceiling(Estimate(s, input, output, now).value, now).value,
                            input * s.inputRate + output * s.outputRate;
            total <= 1000 * c < total + 1000
  {
    hide DivCeil;
    SameNanos(Estimate(s, input, output, now).value);
    CeilingCovers(Estimate(s, input, output, now).value, now);
  }

  /** The ceiling of an estimate covers the exact cost of every bill within its tokens,
      whatever part of the input was cached. */
  lemma CeilingCoversBills(s: PricingSnapshot, p: Prices, input: u32, output: u32, now: Instant, b: Bill)
    requires Bounds(p, s.inputRate, s.outputRate) && Estimate(s, input, output, now).Ok?
    requires b.full + b.cacheRead + b.cacheWrite <= input && b.output <= output
    ensures Ceiling(Estimate(s, input, output, now).value, now).Ok?
    ensures Cost(b, p) <= Ceiling(Estimate(s, input, output, now).value, now).value as real
  {
    hide Cost, Estimate, Ceiling, Bounds;
    EstimateCeiling(s, input, output, now);
    BillWithin(b, p, input, output, s.inputRate, s.outputRate);
  }

  /** And it is tight: rounding two rates and one sum adds less than a thousandth of a
      microdollar per token and one microdollar. */
  lemma CeilingIsTight(s: PricingSnapshot, p: Prices, input: u32, output: u32, now: Instant)
    requires Bounds(p, s.inputRate, s.outputRate) && Estimate(s, input, output, now).Ok?
    ensures Ceiling(Estimate(s, input, output, now).value, now).Ok?
    ensures Ceiling(Estimate(s, input, output, now).value, now).value as real
            < Cost(Bill(input, 0, 0, output), p) + (input + output) as real / 1000.0 + 1.0
  {
    hide Cost, Estimate, Ceiling;
    EstimateCeiling(s, input, output, now);
    ScaledBelow(input, p.input, s.inputRate);
    ScaledBelow(output, p.output, s.outputRate);
    CostAbove(input, output, p, s.inputRate, s.outputRate);
  }

  /** A provider that bills no more than the catalogue price of tokens within the estimate never
      causes an overrun: its receipt, rounded up to microdollars, settles the reservation. */
  lemma HonestReceiptsSettle(lib: Libraries, pricing: Json, generation: Uuid, model: string, at: Instant, p: Prices,
                             input: u32, output: u32, now: Instant, b: Bill, total: Numeral, r: Reservation)
    requires Snapshot(lib, pricing, generation, model, at).Ok? && Stated(pricing.fields, p)
    requires var s := Snapshot(lib, pricing, generation, model, at).value;
             && Estimate(s, input, output, now).Ok?
             && Ceiling(Estimate(s, input, output, now).value, now) == Ok(r.ceiling)
    requires b.full + b.cacheRead + b.cacheWrite <= input && b.output <= output
    requires WellFormed(total) && Meaning(total) * 1000000.0 <= Cost(b, p)
    requires ScaledText(Render(total), 6).Ok?
    ensures Receipt(r, ScaledText(Render(total), 6).value).status == Settled
  {
    hide ScaledText, ScaledAmount, Meaning, Render, WellFormed, Snapshot, Stated, Estimate, Ceiling, Cost, Bounds;
    SnapshotBounds(lib, pricing, generation, model, at, p);
    CeilingCoversBills(Snapshot(lib, pricing, generation, model, at).value, p, input, output, now, b);
    TotalIsCeiling(total);
  }

  lemma TotalIsCeiling(total: Numeral)
    requires WellFormed(total) && ScaledText(Render(total), 6).Ok?
    ensures IsCeiling(ScaledText(Render(total), 6).value, Meaning(total) * 1000000.0)
  {
    hide ScaledText, ScaledAmount, Meaning, Render, WellFormed;
    NumeralRead(total, 6);
    var read := ScaledText(Render(total), 6);
    ScaledAmountAccepted(total, 6, read.value);
    assert read == Ok(read.value);
    assert TenTo(2) == 100.0;
    assert TenTo(4) == 10000.0;
  }

  /** A billing record is read for the generation and model asked for, and its total is rounded
      up to microdollars, never down. */
  lemma ReceiptsRoundUp(value: Json, id: string, model: string, total: Numeral)
    requires Steps.ParseGeneration(value, id, model).Ok? && WellFormed(total)
    requires var cost := Get(Get(value, "data"), "total_cost");
             cost == Str(Render(total)) || cost == Number(Render(total))
    ensures var receipt := Steps.ParseGeneration(value, id, model).value;
            && receipt.id == id && receipt.model == model
            && AsString(Get(Get(value, "data"), "id")) == Some(id)
               && AsString(Get(Get(value, "data"), "model")) == Some(model)
            && AsBool(Get(Get(value, "data"), "cancelled")) == Some(receipt.cancelled)
            && IsCeiling(receipt.actual, Meaning(total) * 1000000.0)
  {
    hide ScaledText, Meaning, Render, WellFormed;
    TotalIsCeiling(total);
  }
}
