/** Order intentions, approvals and fills (domain/order.py, domain/portfolio.py, ports/exchange.py). */
module Orders {
  datatype Side = Buy | Sell

  datatype Purpose = CoreInvestment | SystematicTrading | PaperTrading

  /** Identifiers. The digest of a planned order is an injective constructor of what is hashed. */
  datatype Id =
    | Text(text: string)
    | PlanDigest(portfolioId: string, asOf: int, symbol: string, side: Side)
    | PaperOrder(intent: Id)

  datatype Pair = Pair(base: string, quote: string) {
    function Symbol(): string { base + quote }
  }

  datatype Intent = Intent(
    portfolioId: string, purpose: Purpose, pair: Pair, side: Side,
    quantity: real, createdAt: int, intentId: Id)

  datatype Approved = Approved(intent: Intent, riskPolicyVersion: string)

  datatype FillModel = PaperFillV1 | PaperFillV2

  datatype Report = Report(
    orderId: Id, side: Side, filledQuantity: real, averagePrice: real, fee: real,
    executedAt: int, model: FillModel, feeRate: real, slippageRate: real)
  {
    function Notional(): real { filledQuantity * averagePrice }

    /** What the record demands of its own fields. */
    predicate Accepted() { filledQuantity > 0.0 && averagePrice > 0.0 && fee >= 0.0 }
  }

  /** For a fixed quote asset the concatenated symbol identifies the base asset. */
  lemma SymbolIsInjective(a: string, b: string, quote: string)
    requires Pair(a, quote).Symbol() == Pair(b, quote).Symbol()
    ensures a == b
  {
    assert |a| == |b|;
    assert (a + quote)[..|a|] == a && (b + quote)[..|b|] == b;
  }
}
