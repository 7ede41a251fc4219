/**
 Cost estimation against a published rate card (packages/billing/estimate.go), over int64. Lower-casing
 and the glob matcher are parameters.
 */
module CostEstimate {
  import opened Prelude

  datatype PriceRow = PriceRow(provider: string, pattern: string, inputCentsPer1k: int, outputCentsPer1k: int)

  datatype Card = Card(version: string, prices: seq<PriceRow>)

  datatype Usage = Usage(provider: string, model: string, inputTokens: int, outputTokens: int)

  datatype Failure = VersionRequired | NoRate | NegativeOperand | CostOverflow

  datatype Estimate = Estimate(cents: int) | Refused(why: Failure)

  /** The true price of the tokens, in thousandths of a cent. */
  function Millis(row: PriceRow, u: Usage): int {
    u.inputTokens * row.inputCentsPer1k + u.outputTokens * row.outputCentsPer1k
  }

  function CeilMulDiv1k(tokens: int, price: int): Option<int> {
    if tokens == 0 || price == 0 then Some(0)
    else if tokens > MAX_INT64 / price then None
    else if tokens * price > MAX_INT64 - 999 then None
    else Some((tokens * price + 999) / 1000)
  }

  predicate NonNegative(row: PriceRow, u: Usage) {
    0 <= u.inputTokens && 0 <= u.outputTokens && 0 <= row.inputCentsPer1k && 0 <= row.outputCentsPer1k
  }

  function Price(row: PriceRow, u: Usage): Estimate {
    if !NonNegative(row, u) then Refused(NegativeOperand)
    else
      var a, b := CeilMulDiv1k(u.inputTokens, row.inputCentsPer1k), CeilMulDiv1k(u.outputTokens, row.outputCentsPer1k);
      if a.None? || b.None? then Refused(CostOverflow)
      else if a.value > MAX_INT64 - b.value then Refused(CostOverflow)
      else Estimate(a.value + b.value)
  }

  // ---------------------------------------------------------------- one direction

  lemma DivBound(tokens: int, price: int)
    requires 0 < tokens && 0 < price
    ensures tokens > MAX_INT64 / price <==> tokens * price > MAX_INT64
  {
    var q := MAX_INT64 / price;
    if tokens > q {
      assert tokens * price >= (q + 1) * price;
    } else {
      assert tokens * price <= q * price;
    }
  }

  /** The result is the least number of cents that covers the tokens, and it is refused exactly when
      the product is within 999 of the int64 limit or above it. */
  lemma CeilExact(tokens: int, price: int)
    requires 0 <= tokens && 0 <= price
    ensures CeilMulDiv1k(tokens, price).Some? <==> tokens * price <= MAX_INT64 - 999
    ensures CeilMulDiv1k(tokens, price).Some? ==>
              var c := CeilMulDiv1k(tokens, price).value;
              0 <= c <= MAX_INT64 / 1000 && 1000 * c >= tokens * price && 1000 * (c - 1) < tokens * price
  {
    if tokens != 0 && price != 0 {
      DivBound(tokens, price);
    } else {
      assert tokens * price == 0;
    }
  }

  // ---------------------------------------------------------------- whole estimates

  /** An estimate is given exactly when no operand is negative and each direction's product leaves room
      for rounding; it never undercharges and overcharges by less than two cents. The final overflow
      test never refuses. */
  lemma EstimateExact(row: PriceRow, u: Usage)
    ensures Price(row, u).Estimate? <==>
              && NonNegative(row, u)
              && u.inputTokens * row.inputCentsPer1k <= MAX_INT64 - 999
              && u.outputTokens * row.outputCentsPer1k <= MAX_INT64 - 999
    ensures Price(row, u).Estimate? ==>
              Millis(row, u) <= 1000 * Price(row, u).cents < Millis(row, u) + 2000
  {
    if NonNegative(row, u) {
      CeilExact(u.inputTokens, row.inputCentsPer1k);
      CeilExact(u.outputTokens, row.outputCentsPer1k);
    }
  }

  lemma MulMonotone(a: int, b: int, c: int, d: int)
    requires 0 <= a <= b && 0 <= c <= d
    ensures a * c <= b * d
  {
    assert a * c <= b * c <= b * d;
  }

  lemma CeilMonotone(t: int, t': int, p: int, p': int)
    requires 0 <= t <= t' && 0 <= p <= p' && CeilMulDiv1k(t', p').Some?
    ensures CeilMulDiv1k(t, p).Some? && CeilMulDiv1k(t, p).value <= CeilMulDiv1k(t', p').value
  {
    MulMonotone(t, t', p, p');
    CeilExact(t, p);
    CeilExact(t', p');
  }

  /** More tokens or higher prices never lower the estimate, and never turn a refusal into one. */
  lemma EstimateMonotone(row: PriceRow, row': PriceRow, u: Usage, u': Usage)
    requires NonNegative(row, u) && Price(row', u').Estimate?
    requires u.inputTokens <= u'.inputTokens && u.outputTokens <= u'.outputTokens
    requires row.inputCentsPer1k <= row'.inputCentsPer1k && row.outputCentsPer1k <= row'.outputCentsPer1k
    ensures Price(row, u).Estimate? && Price(row, u).cents <= Price(row', u').cents
  {
    CeilMonotone(u.inputTokens, u'.inputTokens, row.inputCentsPer1k, row'.inputCentsPer1k);
    CeilMonotone(u.outputTokens, u'.outputTokens, row.outputCentsPer1k, row'.outputCentsPer1k);
  }

  function Plus(u: Usage, v: Usage): Usage {
    u.(inputTokens := u.inputTokens + v.inputTokens, outputTokens := u.outputTokens + v.outputTokens)
  }

  lemma CeilSplit(s: int, t: int, p: int)
    requires 0 <= s && 0 <= t && 0 <= p && CeilMulDiv1k(s + t, p).Some?
    ensures CeilMulDiv1k(s, p).Some? && CeilMulDiv1k(t, p).Some?
    ensures CeilMulDiv1k(s + t, p).value <= CeilMulDiv1k(s, p).value + CeilMulDiv1k(t, p).value
  {
    MulMonotone(s, s + t, p, p);
    MulMonotone(t, s + t, p, p);
    assert (s + t) * p == s * p + t * p;
    CeilExact(s, p);
    CeilExact(t, p);
    CeilExact(s + t, p);
  }

  /** Splitting a request in two never makes it cheaper. */
  lemma SplitNeverCheaper(row: PriceRow, u: Usage, v: Usage)
    requires NonNegative(row, u) && NonNegative(row, v) && Price(row, Plus(u, v)).Estimate?
    ensures Price(row, u).Estimate? && Price(row, v).Estimate?
    ensures Price(row, Plus(u, v)).cents <= Price(row, u).cents + Price(row, v).cents
  {
    CeilSplit(u.inputTokens, v.inputTokens, row.inputCentsPer1k);
    CeilSplit(u.outputTokens, v.outputTokens, row.outputCentsPer1k);
    EstimateExact(row, u);
    EstimateExact(row, v);
    MulMonotone(u.inputTokens, u.inputTokens + v.inputTokens, row.inputCentsPer1k, row.inputCentsPer1k);
    MulMonotone(v.inputTokens, u.inputTokens + v.inputTokens, row.inputCentsPer1k, row.inputCentsPer1k);
    MulMonotone(u.outputTokens, u.outputTokens + v.outputTokens, row.outputCentsPer1k, row.outputCentsPer1k);
    MulMonotone(v.outputTokens, u.outputTokens + v.outputTokens, row.outputCentsPer1k, row.outputCentsPer1k);
    EstimateExact(row, Plus(u, v));
  }

  // ---------------------------------------------------------------- the code

  predicate Matches(lower: string -> string, glob: (string, string) -> bool, row: PriceRow, u: Usage) {
    && lower(TrimSpace(row.provider)) == lower(TrimSpace(u.provider))
    && TrimSpace(row.pattern) != "" && glob(TrimSpace(row.pattern), TrimSpace(u.model))
  }

  /** The first row that matches. */
  method MatchPrice(lower: string -> string, glob: (string, string) -> bool, prices: seq<PriceRow>, u: Usage)
    returns (row: Option<PriceRow>)
    ensures row.Some? <==> exists i :: 0 <= i < |prices| && Matches(lower, glob, prices[i], u)
    ensures row.Some? ==>
            exists i :: 0 <= i < |prices| && prices[i] == row.value && Matches(lower, glob, prices[i], u) &&
              forall j :: 0 <= j < i ==> !Matches(lower, glob, prices[j], u)
  {
    var prov, mod := lower(TrimSpace(u.provider)), TrimSpace(u.model);
    for i := 0 to |prices|
      invariant forall j :: 0 <= j < i ==> !Matches(lower, glob, prices[j], u)
    {
      var p := prices[i];
      if lower(TrimSpace(p.provider)) != prov { continue; }
      var pat := TrimSpace(p.pattern);
      if pat == "" { continue; }
      if !glob(pat, mod) { continue; }
      return Some(p);
    }
    row := None;
  }

  /** A card's estimate is the price by the first matching row, and carries the card's version. */
  method EstimateCost(lower: string -> string, glob: (string, string) -> bool, card: Card, u: Usage)
    returns (r: Estimate, version: string)
    ensures r.Estimate? ==> version == card.version && !Blank(card.version)
    ensures r != Refused(VersionRequired) && r != Refused(NoRate) ==>
            exists i :: 0 <= i < |card.prices| && Matches(lower, glob, card.prices[i], u) &&
              (forall j :: 0 <= j < i ==> !Matches(lower, glob, card.prices[j], u)) && r == Price(card.prices[i], u)
    ensures r == Refused(VersionRequired) <==> Blank(card.version)
    ensures r == Refused(NoRate) <==>
            !Blank(card.version) && forall i :: 0 <= i < |card.prices| ==> !Matches(lower, glob, card.prices[i], u)
  {
    if Blank(card.version) { return Refused(VersionRequired), ""; }
    var row := MatchPrice(lower, glob, card.prices, u);
    if row.None? { return Refused(NoRate), card.version; }
    r := Price(row.value, u);
    version := if r.Estimate? then card.version else "";
  }
}
