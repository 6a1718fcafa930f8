/**
 * The candidate sources. Every random choice the service makes is a
 * parameter here, so each source is a function of its draws.
 */
module Sources {
  import opened Wrappers
  import opened Trades
  import opened Validator

  /** The allow-list as the list the generator picks a symbol from (any fixed order). */
  const SymbolChoices: seq<string> := ["AAPL", "GOOGL", "MSFT", "TSLA", "AMZN"]

  /** The choice list holds the allow-list, no more and no less. */
  lemma SymbolChoicesEnumerate(v: string)
    ensures v in SymbolChoices <==> v in ValidSymbols
  {
  }

  /** The random draws behind one generated candidate. */
  datatype SampleDraw = SampleDraw(
    symbolIndex: nat,
    side: TradeSide,
    quantity: int,
    price: real,
    status: TradeStatus)

  /**
   * The ranges the random draws come from: an index into the symbol list,
   * an integer quantity in [100, 1000] and a price in [50, 500].
   */
  predicate InDrawRange(d: SampleDraw) {
    && d.symbolIndex < |SymbolChoices|
    && 100 <= d.quantity <= 1000
    && 50.0 <= d.price <= 500.0
  }

  /**
   * The simulated source: a candidate with every required key, an allowed
   * symbol, a quantity in [100, 1000], a price in [50, 500], enumeration
   * values for side and status, the current time, source "simulation" and
   * no trade ID yet. It always passes validation.
   */
  function GenerateSampleTrade(d: SampleDraw, now: string): (r: TradeData)
    requires InDrawRange(d)
    ensures r.symbol.Some? && r.symbol.value in ValidSymbols
    ensures r.quantity.Some? && 100 <= r.quantity.value <= 1000
    ensures r.price.Some? && 50.0 <= r.price.value <= 500.0
    ensures r.side.Some? && r.side.value in SideValues
    ensures r.status.Some? && r.status.value in StatusValues
    ensures r.timestamp == Some(now)
    ensures r.source == Some(Simulation.Value())
    ensures r.tradeId.None?
    ensures ValidateTrade(r)
  {
    SideValuesExact(d.side.Value());
    StatusValuesExact(d.status.Value());
    TradeData(
      None,
      Some(SymbolChoices[d.symbolIndex]),
      Some(d.side.Value()),
      Some(d.quantity),
      Some(d.price),
      Some(now),
      Some(d.status.Value()),
      Some(Simulation.Value()))
  }

  /** The API succeeds on a percent coin below this threshold (30 of 100 outcomes). */
  const ApiSuccessPercent: nat := 30

  /**
   * The polled API placeholder. `coin` is the uniform draw as a whole
   * percent. On success the candidate is a generated one that differs only
   * in carrying source "api", and it still validates; otherwise there is no
   * data.
   */
  function FetchFromApi(coin: nat, d: SampleDraw, now: string): (r: Option<TradeData>)
    requires InDrawRange(d)
    ensures r.Some? <==> coin < 30
    ensures r.Some? ==> r.value.source == Some(Api.Value())
    ensures r.Some? ==> r.value.(source := Some(Simulation.Value())) == GenerateSampleTrade(d, now)
    ensures r.Some? ==> ValidateTrade(r.value)
  {
    if coin < ApiSuccessPercent then
      Some(GenerateSampleTrade(d, now).(source := Some(Api.Value())))
    else
      None
  }

  /** The percent coins below `n`. */
  function CoinsBelow(n: nat): (cs: set<nat>)
    ensures forall c: nat :: c in cs <==> c < n
  {
    if n == 0 then {} else CoinsBelow(n - 1) + {n - 1}
  }

  lemma {:induction false} CoinsBelowCount(n: nat)
    ensures |CoinsBelow(n)| == n
  {
    if n > 0 {
      var below := CoinsBelow(n - 1);
      CoinsBelowCount(n - 1);
      assert n - 1 !in below;
      assert CoinsBelow(n) == below + {n - 1};
    }
  }

  /** Of the 100 equally likely percent coins, exactly 30 make the API call succeed. */
  lemma ApiSuccessRate(d: SampleDraw, now: string)
    requires InDrawRange(d)
    ensures |set c: nat | c < 100 && FetchFromApi(c, d, now).Some?| == 30
  {
    assert (set c: nat | c < 100 && FetchFromApi(c, d, now).Some?) == CoinsBelow(30);
    CoinsBelowCount(30);
  }

  /** The draws for one iteration of the producer loop. */
  datatype Tick = Tick(draw: SampleDraw, coin: nat, now: string)

  /**
   * The candidate one iteration obtains in the given mode. Nothing comes
   * from Kafka, nor from the API on a failed call; whatever does come
   * passes validation.
   */
  function ObtainCandidate(mode: DataSource, tick: Tick): (r: Option<TradeData>)
    requires InDrawRange(tick.draw)
    ensures r.None? <==> mode == Kafka || (mode == Api && tick.coin >= 30)
    ensures r.Some? ==> ValidateTrade(r.value)
    ensures r.Some? ==> r.value.source == Some(mode.Value())
  {
    match mode
    case Simulation => Some(GenerateSampleTrade(tick.draw, tick.now))
    case Api => FetchFromApi(tick.coin, tick.draw, tick.now)
    case Kafka => None
  }
}
