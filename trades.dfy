/**
 * The trade record, its three enumerations and the dictionary form that
 * travels through the ingestion queue.
 */
module Trades {
  import opened Wrappers

  /** How much of an order was executed; `Value` is the enumeration's string value. */
  datatype TradeStatus = Filled | Partial | Canceled {
    function Value(): string {
      match this
      case Filled => "Filled"
      case Partial => "Partial"
      case Canceled => "Canceled"
    }
  }

  datatype TradeSide = Buy | Sell {
    function Value(): string {
      match this
      case Buy => "Buy"
      case Sell => "Sell"
    }
  }

  /** Where candidates come from; Kafka is a placeholder that never yields one. */
  datatype DataSource = Simulation | Api | Kafka {
    function Value(): string {
      match this
      case Simulation => "simulation"
      case Api => "api"
      case Kafka => "kafka"
    }
  }

  /** The fixed allow-list of tradable symbols. */
  const ValidSymbols: set<string> := {"AAPL", "GOOGL", "MSFT", "TSLA", "AMZN"}

  /** The string values of all sides, in declaration order. */
  const SideValues: seq<string> := ["Buy", "Sell"]

  /** The string values of all statuses, in declaration order. */
  const StatusValues: seq<string> := ["Filled", "Partial", "Canceled"]

  /** SideValues lists exactly the values of the side enumeration. */
  lemma SideValuesExact(v: string)
    ensures v in SideValues <==> exists s: TradeSide :: s.Value() == v
  {
    if v in SideValues {
      if v == "Buy" {
        assert Buy.Value() == v;
      } else {
        assert Sell.Value() == v;
      }
    } else if exists s: TradeSide :: s.Value() == v {
      var s: TradeSide :| s.Value() == v;
      match s
      case Buy => assert false;
      case Sell => assert false;
    }
  }

  /** StatusValues lists exactly the values of the status enumeration. */
  lemma StatusValuesExact(v: string)
    ensures v in StatusValues <==> exists s: TradeStatus :: s.Value() == v
  {
    if v in StatusValues {
      if v == "Filled" {
        assert Filled.Value() == v;
      } else if v == "Partial" {
        assert Partial.Value() == v;
      } else {
        assert Canceled.Value() == v;
      }
    } else if exists s: TradeStatus :: s.Value() == v {
      var s: TradeStatus :| s.Value() == v;
      match s
      case Filled => assert false;
      case Partial => assert false;
      case Canceled => assert false;
    }
  }

  /**
   * A trade as a dictionary of primitive values: a candidate from a source,
   * or a record in the queue. Each key is optional, so that a missing key
   * stays distinct from a key whose value is out of range.
   */
  datatype TradeData = TradeData(
    tradeId: Option<int>,
    symbol: Option<string>,
    side: Option<string>,
    quantity: Option<int>,
    price: Option<real>,
    timestamp: Option<string>,
    status: Option<string>,
    source: Option<string>)

  /** A typed trade; the timestamp is kept in its ISO text form. */
  datatype Trade = Trade(
    tradeId: int,
    symbol: string,
    side: TradeSide,
    quantity: int,
    price: real,
    timestamp: string,
    status: TradeStatus,
    source: DataSource)

  /** All eight keys of a serialised trade are present. */
  predicate HasAllKeys(d: TradeData) {
    && d.tradeId.Some? && d.symbol.Some? && d.side.Some? && d.quantity.Some?
    && d.price.Some? && d.timestamp.Some? && d.status.Some? && d.source.Some?
  }

  function ParseSide(v: string): (r: Option<TradeSide>)
    ensures r.Some? ==> r.value.Value() == v
  {
    if v == "Buy" then Some(Buy) else if v == "Sell" then Some(Sell) else None
  }

  function ParseStatus(v: string): (r: Option<TradeStatus>)
    ensures r.Some? ==> r.value.Value() == v
  {
    if v == "Filled" then Some(Filled)
    else if v == "Partial" then Some(Partial)
    else if v == "Canceled" then Some(Canceled)
    else None
  }

  function ParseSource(v: string): (r: Option<DataSource>)
    ensures r.Some? ==> r.value.Value() == v
  {
    if v == "simulation" then Some(Simulation)
    else if v == "api" then Some(Api)
    else if v == "kafka" then Some(Kafka)
    else None
  }

  /** Reads a typed trade back from its dictionary form, if it is one. */
  function FromDict(d: TradeData): (r: Option<Trade>)
    ensures r.Some? ==> HasAllKeys(d)
  {
    if !HasAllKeys(d) then None
    else match (ParseSide(d.side.value), ParseStatus(d.status.value), ParseSource(d.source.value))
      case (Some(side), Some(status), Some(source)) =>
        Some(Trade(d.tradeId.value, d.symbol.value, side, d.quantity.value, d.price.value,
                   d.timestamp.value, status, source))
      case _ => None
  }

  /**
   * Serialises a trade: every key is present and each enumeration is
   * replaced by its string value, losing nothing (reading it back gives the
   * same trade).
   */
  function ToDict(t: Trade): (d: TradeData)
    ensures HasAllKeys(d)
    ensures FromDict(d) == Some(t)
  {
    TradeData(Some(t.tradeId), Some(t.symbol), Some(t.side.Value()), Some(t.quantity),
              Some(t.price), Some(t.timestamp), Some(t.status.Value()), Some(t.source.Value()))
  }

  /** Two trades with the same dictionary form are the same trade. */
  lemma ToDictInjective(t1: Trade, t2: Trade)
    ensures ToDict(t1) == ToDict(t2) ==> t1 == t2
  {
  }
}
