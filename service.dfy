/**
 * The ingestion service: its lifecycle and its producer loop, run
 * sequentially. The worker thread is a flag, the lock a plain increment,
 * and the queue the sequence of records it holds.
 */
module Service {
  import opened Wrappers
  import opened Trades
  import opened Validator
  import opened Sources
  import opened Producer

  /** The outcome of choosing the service's queue at construction. */
  datatype QueueChoice = Raises | Uses(queue: seq<TradeData>)

  /**
   * The queue choice as the constructor writes it: the parameter named
   * after the queue module hides that module, so when no queue is passed
   * the attempt to create one looks up an attribute on nothing and raises.
   * A passed queue object is always truthy, even when empty.
   */
  function InitialQueueAsWritten(injected: Option<seq<TradeData>>): (r: QueueChoice)
    ensures injected.Some? ==> r == Uses(injected.value)
  {
    match injected
    case Some(q) => Uses(q)
    case None => Raises
  }

  /** Constructing a service without a queue fails as written. */
  lemma DefaultQueueRaises()
    ensures InitialQueueAsWritten(None) == Raises
  {
  }

  /** The evidently intended choice: the injected queue, or a fresh empty one. */
  function InitialQueue(injected: Option<seq<TradeData>>): (q: seq<TradeData>)
    ensures injected.Some? ==> q == injected.value
    ensures injected.None? ==> q == []
  {
    if injected.Some? then injected.value else []
  }

  /**
   * The intended choice never raises and agrees with the written one
   * wherever that one does not raise.
   */
  lemma InitialQueueAgrees(injected: Option<seq<TradeData>>)
    ensures InitialQueueAsWritten(injected) != Raises ==> InitialQueueAsWritten(injected) == Uses(InitialQueue(injected))
  {
  }

  class IngestionService {
    /** The records in the queue, oldest first. */
    var tradeQueue: seq<TradeData>
    /** The running signal the worker checks before each iteration. */
    var running: bool
    /** Whether a producer worker is recorded. */
    var hasWorker: bool
    var tradeIdCounter: nat
    var dataSource: DataSource

    /** The running signal is set exactly while a worker is recorded. */
    ghost predicate Valid()
      reads this
    {
      running == hasWorker
    }

    /** The counter and the queue, the state the producer loop changes. */
    function State(): Snapshot
      reads this
    {
      Snapshot(tradeIdCounter, tradeQueue)
    }

    /** A stopped service in simulation mode over the injected queue, or over a fresh empty one. */
    constructor (queue: Option<seq<TradeData>>)
      ensures Valid()
      ensures !running && !hasWorker
      ensures queue.Some? ==> tradeQueue == queue.value
      ensures queue.None? ==> tradeQueue == []
      ensures tradeIdCounter == 0 && dataSource == Simulation
    {
      tradeQueue := InitialQueue(queue);
      running := false;
      hasWorker := false;
      tradeIdCounter := 0;
      dataSource := Simulation;
    }

    /**
     * Starts a worker unless one is already recorded, in which case nothing
     * changes; either way the service is then running with one worker.
     */
    method Start()
      requires Valid()
      modifies this
      ensures Valid() && running && hasWorker
      ensures old(hasWorker) ==> unchanged(this)
      ensures State() == old(State()) && dataSource == old(dataSource)
    {
      if hasWorker {
        return;
      }
      running := true;
      hasWorker := true;
    }

    /**
     * Clears the running signal and forgets the worker; harmless when the
     * service never started or is already stopped.
     */
    method Stop()
      modifies this
      ensures Valid() && !running && !hasWorker
      ensures State() == old(State()) && dataSource == old(dataSource)
    {
      running := false;
      if hasWorker {
        hasWorker := false;
      }
    }

    /**
     * The validate-and-enqueue half of an iteration: an accepted candidate
     * increments the counter by one, is stamped with the new value and is
     * appended; a rejected one changes nothing.
     */
    method IngestCandidate(c: TradeData)
      modifies this`tradeIdCounter, this`tradeQueue
      ensures ValidateTrade(c) ==>
                tradeIdCounter == old(tradeIdCounter) + 1
                && tradeQueue == old(tradeQueue) + [c.(tradeId := Some(tradeIdCounter))]
      ensures !ValidateTrade(c) ==> tradeIdCounter == old(tradeIdCounter) && tradeQueue == old(tradeQueue)
      ensures State() == Ingest(old(State()), Some(c))
    {
      if ValidateTrade(c) {
        tradeIdCounter := tradeIdCounter + 1;
        var stamped := c.(tradeId := Some(tradeIdCounter));
        tradeQueue := tradeQueue + [stamped];
      }
    }

    /**
     * One iteration of the producer loop: obtain a candidate in the current
     * mode, then ingest it. Kafka mode and a failed API call change nothing.
     */
    method ProducerIteration(tick: Tick)
      requires InDrawRange(tick.draw)
      modifies this`tradeIdCounter, this`tradeQueue
      ensures State() == Ingest(old(State()), ObtainCandidate(dataSource, tick))
      ensures ObtainCandidate(dataSource, tick).None? ==> State() == old(State())
    {
      var candidate: Option<TradeData>;
      match dataSource {
        case Simulation =>
          candidate := Some(GenerateSampleTrade(tick.draw, tick.now));
        case Api =>
          candidate := FetchFromApi(tick.coin, tick.draw, tick.now);
        case Kafka =>
          candidate := None;
      }
      if candidate.Some? {
        IngestCandidate(candidate.value);
      }
    }

    /**
     * The producer loop, one tick per iteration, for as long as the running
     * signal is set; `ticks` are the iterations that happen before a stop is
     * observed. Its effect is that of the iterations in sequence.
     */
    method ProducerLoop(ticks: seq<Tick>)
      requires AllInRange(ticks)
      modifies this`tradeIdCounter, this`tradeQueue
      ensures State() == if running then IngestAll(old(State()), FetchAll(dataSource, ticks)) else old(State())
    {
      var i := 0;
      while running && i < |ticks|
        invariant 0 <= i <= |ticks|
        invariant !running ==> i == 0
        invariant State() == IngestAll(old(State()), FetchAll(dataSource, ticks)[..i])
      {
        ProducerIteration(ticks[i]);
        assert FetchAll(dataSource, ticks)[..i + 1][..i] == FetchAll(dataSource, ticks)[..i];
        i := i + 1;
      }
      assert running ==> FetchAll(dataSource, ticks)[..i] == FetchAll(dataSource, ticks);
    }
  }

  /**
   * The test routine: a service over an empty queue is started, runs a
   * number of simulated iterations, is stopped, and the queue is drained.
   * Every iteration yields a record, and the drained IDs are 1, 2, ... in
   * order, so at least five records come out whenever five iterations ran.
   */
  method RunTestScenario(ticks: seq<Tick>) returns (ids: seq<int>)
    requires AllInRange(ticks)
    ensures |ids| == |ticks|
    ensures forall j :: 0 <= j < |ids| ==> ids[j] == j + 1
    ensures |ticks| >= 5 ==> |ids| >= 5
  {
    var service := new IngestionService(Some([]));
    service.Start();
    service.ProducerLoop(ticks);
    service.Stop();
    IdsContiguous(FetchAll(Simulation, ticks));
    AcceptedCount(Simulation, ticks);
    var drained := service.tradeQueue;
    ids := [];
    var i := 0;
    while i < |drained|
      invariant 0 <= i <= |drained|
      invariant |ids| == i
      invariant forall j :: 0 <= j < i ==> ids[j] == j + 1
    {
      ids := ids + [drained[i].tradeId.value];
      i := i + 1;
    }
  }
}
