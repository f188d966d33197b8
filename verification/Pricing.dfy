/** What the broker reserves for a model call, and what it reads out of the
    usage a provider reports. */
module Pricing {
  import opened Wrappers

  const U128_MAX: nat := 0xFFFF_FFFF_FFFF_FFFF_FFFF_FFFF_FFFF_FFFF
  const MILLION: nat := 1_000_000

  datatype Model = Model(inputPrice: U64, outputPrice: U64) {
    /** Configuration refuses free models. */
    predicate Valid() {
      inputPrice > 0 && outputPrice > 0
    }
  }

  /** The price of a call in micro-dollars per million, in unbounded integers. */
  function ExactPrice(m: Model, input: nat, output: nat): nat {
    input * m.inputPrice + output * m.outputPrice
  }

  /** 64-bit prices of 64-bit counts, summed in 128 bits and rounded up; `None`
      when the sum or the rounded result does not fit. */
  function EstimateCost(m: Model, input: U64, output: U64): Option<U64> {
    var total := ExactPrice(m, input, output);
    if total > U128_MAX then None
    else
      var micros := (total + (MILLION - 1)) / MILLION;
      if micros > U64_MAX then None else Some(micros)
  }

  lemma Product(x: nat, y: nat, z: nat)
    requires x <= y
    ensures x * z <= y * z
  {
  }

  lemma PriceMonotone(m: Model, input: nat, output: nat, input': nat, output': nat)
    requires input <= input' && output <= output'
    ensures ExactPrice(m, input, output) <= ExactPrice(m, input', output')
  {
    Product(input, input', m.inputPrice);
    Product(output, output', m.outputPrice);
  }

  /** The estimate is the least whole number of micro-dollars that covers the exact
      price; there is none exactly when even that does not fit in 64 bits. */
  lemma EstimateIsCeiling(m: Model, input: U64, output: U64)
    ensures EstimateCost(m, input, output).Some? <==> ExactPrice(m, input, output) <= U64_MAX * MILLION
    ensures EstimateCost(m, input, output).Some? ==>
      var micros := EstimateCost(m, input, output).value;
      && ExactPrice(m, input, output) <= micros * MILLION
      && (micros - 1) * MILLION < ExactPrice(m, input, output)
  {
    Ceiling(ExactPrice(m, input, output));
  }

  lemma Ceiling(n: nat)
    ensures var c := (n + (MILLION - 1)) / MILLION;
      n <= c * MILLION && (c - 1) * MILLION < n && (forall k: nat :: n <= k * MILLION <==> c <= k)
  {
  }

  /** More tokens never cost less; a price that fits keeps fitting downwards. */
  lemma EstimateMonotone(m: Model, input: U64, output: U64, input': U64, output': U64)
    requires input <= input' && output <= output' && EstimateCost(m, input', output').Some?
    ensures EstimateCost(m, input, output).Some?
    ensures EstimateCost(m, input, output).value <= EstimateCost(m, input', output').value
  {
    PriceMonotone(m, input, output, input', output');
    EstimateIsCeiling(m, input, output);
    EstimateIsCeiling(m, input', output');
    Ceiling(ExactPrice(m, input, output));
  }

  /** The completion tokens a request may use: what it asks for, capped by the
      policy's ceiling. */
  function Completion(requested: Option<U64>, ceiling: U64): (n: U64)
    ensures n <= ceiling && (requested.Some? ==> n <= requested.value)
    ensures n == ceiling || requested == Some(n)
  {
    if requested.Some? && requested.value < ceiling then requested.value else ceiling
  }

  /** The charge `handle_llm` reserves: one token per body byte, plus the bounded
      completion, and their price. */
  function Charge(m: Model, bodyBytes: U64, requested: Option<U64>, ceiling: U64): Option<(U64, U64)> {
    var completion := Completion(requested, ceiling);
    if completion == 0 then None
    else
      var tokens := CheckedAdd(bodyBytes, completion);
      var cost := EstimateCost(m, bodyBytes, completion);
      if tokens.None? || cost.None? then None else Some((tokens.value, cost.value))
  }

  /** With validated prices every reservation is a positive charge, the condition
      under which the strict ledger stays readable. */
  lemma ChargeIsPositive(m: Model, bodyBytes: U64, requested: Option<U64>, ceiling: U64)
    requires m.Valid()
    ensures var c := Charge(m, bodyBytes, requested, ceiling); c.Some? ==> c.value.0 > 0 && c.value.1 > 0
  {
    var completion := Completion(requested, ceiling);
    if completion > 0 {
      Product(1, completion, m.outputPrice);
      EstimateIsCeiling(m, bodyBytes, completion);
    }
  }

  /** A charge exists exactly when the completion is positive and the sums fit. It
      is the body and the completion, in unbounded integers, and the least whole
      amount that covers the price of both. */
  lemma ChargeIsExact(m: Model, bodyBytes: U64, requested: Option<U64>, ceiling: U64)
    ensures var c, n := Charge(m, bodyBytes, requested, ceiling), Completion(requested, ceiling);
      && (c.Some? <==> n > 0 && bodyBytes + n <= U64_MAX && ExactPrice(m, bodyBytes, n) <= U64_MAX * MILLION)
      && (c.Some? ==>
            && c.value.0 == bodyBytes + n
            && forall k: nat :: ExactPrice(m, bodyBytes, n) <= k * MILLION <==> c.value.1 <= k)
  {
    var n := Completion(requested, ceiling);
    EstimateIsCeiling(m, bodyBytes, n);
    Ceiling(ExactPrice(m, bodyBytes, n));
  }

  datatype Usage = Usage(input: Option<U64>, output: Option<U64>, total: Option<U64>)

  function Or0(n: Option<U64>): U64 {
    if n.Some? then n.value else 0
  }

  /** What is handed to the guard for one reported usage, if anything. */
  function Observed(m: Model, u: Usage): Option<(U64, Option<U64>)> {
    if u.input.None? && u.output.None? && u.total.None? then None
    else
      var components := CheckedAdd(Or0(u.input), Or0(u.output));
      if components.None? then Some((U64_MAX, None))
      else
        Some((if components.value > Or0(u.total) then components.value else Or0(u.total),
              EstimateCost(m, Or0(u.input), Or0(u.output))))
  }

  /** The guard's own test on what it is handed. */
  predicate Over(observed: Option<(U64, Option<U64>)>, tokens: U64, cost: U64) {
    observed.Some? && (observed.value.0 > tokens || observed.value.1.None? || observed.value.1.value > cost)
  }

  /** The guard fires exactly when the reported usage, in unbounded arithmetic,
      exceeds the reservation in tokens (by parts or by total) or in price. No
      overflow hides an overage and none is invented. */
  lemma OverageIsExact(m: Model, u: Usage, tokens: U64, cost: U64)
    requires m.Valid()
    ensures Over(Observed(m, u), tokens, cost) <==>
      || Or0(u.input) + Or0(u.output) > tokens
      || Or0(u.total) > tokens
      || ExactPrice(m, Or0(u.input), Or0(u.output)) > cost * MILLION
  {
    EstimateIsCeiling(m, Or0(u.input), Or0(u.output));
    Ceiling(ExactPrice(m, Or0(u.input), Or0(u.output)));
    assert ExactPrice(m, Or0(u.input), Or0(u.output)) <= cost * MILLION ==> EstimateCost(m, Or0(u.input), Or0(u.output)).Some?;
  }

  /** Usage within the reserved counts is never an overage; usage of more tokens
      than were reserved always is, one more output token included. */
  lemma ReservationCoversUsage(m: Model, bodyBytes: U64, requested: Option<U64>, ceiling: U64, u: Usage)
    requires m.Valid() && Charge(m, bodyBytes, requested, ceiling).Some?
    ensures var (tokens, cost), n := Charge(m, bodyBytes, requested, ceiling).value, Completion(requested, ceiling);
      && (Or0(u.input) <= bodyBytes && Or0(u.output) <= n && Or0(u.total) <= bodyBytes + n ==>
            !Over(Observed(m, u), tokens, cost))
      && (Or0(u.input) + Or0(u.output) > bodyBytes + n || Or0(u.total) > bodyBytes + n ==>
            Over(Observed(m, u), tokens, cost))
  {
    var (tokens, cost) := Charge(m, bodyBytes, requested, ceiling).value;
    var n := Completion(requested, ceiling);
    ChargeIsExact(m, bodyBytes, requested, ceiling);
    OverageIsExact(m, u, tokens, cost);
    if Or0(u.input) <= bodyBytes && Or0(u.output) <= n {
      PriceMonotone(m, Or0(u.input), Or0(u.output), bodyBytes, n);
    }
  }
}
