/** The validation step a candidate must pass before it may be queued. */
module Validator {
  import opened Wrappers
  import opened Trades

  /** The seven keys the validator requires; the trade ID is not among them. */
  predicate HasRequiredKeys(d: TradeData) {
    && d.quantity.Some? && d.price.Some? && d.symbol.Some? && d.side.Some?
    && d.status.Some? && d.timestamp.Some? && d.source.Some?
  }

  /**
   * The validator, checking the rules in the order the service does and
   * rejecting at the first one that fails.
   */
  function ValidateTrade(d: TradeData): (ok: bool)
    ensures ok ==> HasRequiredKeys(d)
  {
    if d.quantity.None? || d.quantity.value <= 0 then false
    else if d.price.None? || d.price.value <= 0.0 then false
    else if d.symbol.None? || d.symbol.value !in ValidSymbols then false
    else if d.side.None? || d.side.value !in SideValues then false
    else if d.status.None? || d.status.value !in StatusValues then false
    else if d.timestamp.None? then false
    else if d.source.None? then false
    else true
  }

  /**
   * The domain rules a trade record obeys, stated independently of the
   * order of the checks: positive quantity and price, an allowed symbol,
   * a side and a status that are values of their enumerations, and a
   * timestamp and a source.
   */
  ghost predicate IsTradeRecord(d: TradeData) {
    && d.quantity.Some? && d.quantity.value > 0
    && d.price.Some? && d.price.value > 0.0
    && d.symbol.Some? && d.symbol.value in ValidSymbols
    && d.side.Some? && (exists s: TradeSide :: s.Value() == d.side.value)
    && d.status.Some? && (exists s: TradeStatus :: s.Value() == d.status.value)
    && d.timestamp.Some?
    && d.source.Some?
  }

  /** The validator accepts exactly the trade records. */
  lemma ValidateTradeIff(d: TradeData)
    ensures ValidateTrade(d) <==> IsTradeRecord(d)
  {
    if d.side.Some? {
      SideValuesExact(d.side.value);
    }
    if d.status.Some? {
      StatusValuesExact(d.status.value);
    }
  }

  /** A single missing required key is enough for rejection. */
  lemma MissingKeyRejected(d: TradeData)
    requires !HasRequiredKeys(d)
    ensures !ValidateTrade(d)
  {
  }

  /**
   * Sides and statuses are compared as exact strings, so other spellings
   * of an enumeration value are rejected.
   */
  lemma OtherSpellingsRejected(d: TradeData)
    requires d.side in {Some("BUY"), Some("buy"), Some("SELL"), Some("sell")}
          || d.status in {Some("FILLED"), Some("filled"), Some("PARTIAL"), Some("partial"),
                          Some("CANCELED"), Some("canceled"), Some("Cancelled")}
    ensures !ValidateTrade(d)
  {
  }

  /** A candidate with a quantity of -5 is rejected, whatever its other keys hold. */
  lemma NegativeQuantityRejected(d: TradeData)
    requires d.quantity == Some(-5)
    ensures !ValidateTrade(d)
  {
  }

  /**
   * The dictionary form of a typed trade passes validation exactly when
   * the trade's symbol is allowed and its quantity and price are positive:
   * its enumerations can only serialise to allowed values.
   */
  lemma ToDictValidates(t: Trade)
    ensures ValidateTrade(ToDict(t)) <==> t.symbol in ValidSymbols && t.quantity > 0 && t.price > 0.0
  {
  }

  /** Stamping a trade ID never changes the verdict: the ID is not a validated key. */
  lemma StampKeepsVerdict(d: TradeData, id: int)
    ensures ValidateTrade(d.(tradeId := Some(id))) == ValidateTrade(d)
  {
  }
}
