/** The order intent shared by risk, replay and gateway (contracts/simulation.py). */
module Orders {
  import opened Contracts
  import opened InstrumentMaster

  datatype OrderSide = Buy | Sell

  datatype OrderIntent = OrderIntent(
    clientOrderId: CanonicalId,
    traceId: CanonicalId,
    sourceDecisionId: CanonicalId,
    instrumentId: CanonicalId,
    venueId: CanonicalId,
    side: OrderSide,
    orderType: OrderType,
    quantity: PositiveDecimal,
    submittedAt: Timestamp,
    limitPrice: Option<PositiveDecimal>)
}
