# Trade ingestion service — a Dafny model

This project models the core of a small trade ingestion service. A producer
obtains candidate trades from a source: a simulator, a polled API that
succeeds 30% of the time, or a Kafka placeholder that yields nothing. It
validates each candidate against the domain rules. It stamps each accepted
candidate with the next trade ID from a counter and puts it on a queue for
consumers. The service can be started and stopped. Stopping twice, or
stopping before starting, is harmless.

The model is sequential. Threads, sleeps and the lock are abstracted away,
and every random draw is a parameter.

- `wrappers.dfy`: `Option`, used for a dictionary key that may be absent and a fetch that may yield nothing.
- `trades.dfy`: the `TradeStatus`, `TradeSide` and `DataSource` enumerations with their string values, the allow-list of symbols, the typed `Trade`, its dictionary form `TradeData` (one optional field per key) and `ToDict`.
- `validator.dfy`: `ValidateTrade`. It checks the rules in the source's order. It is proved equal to an order-free statement of the rules.
- `sources.dfy`: the simulated generator, the API placeholder and the choice of source by mode.
- `producer.dfy`: the effect of producer iterations on the counter and the queue, as functions, and the ID lemmas.
- `service.dfy`: the `IngestionService` class (lifecycle, one iteration, the loop), the run-test scenario and the constructor's queue choice.

## Model

| member | source | states |
|---|---|---|
| `Trades.SideValuesExact` | TradeIngestionServiceCompleted.py:24-26 | a string is among the side values the validator accepts iff it is the value of some side |
| `Trades.StatusValuesExact` | TradeIngestionServiceCompleted.py:18-21 | a string is among the accepted status values iff it is the value of some status |
| `Trades.ToDict` | TradeIngestionServiceCompleted.py:49-59 | all eight keys are present; the enumerations become their string values, and nothing is lost: reading the dictionary back gives the same trade |
| `Trades.ToDictInjective` | TradeIngestionServiceCompleted.py:49-59 | distinct trades serialise to distinct dictionaries |
| `Validator.ValidateTrade` | TradeIngestionServiceCompleted.py:123-139 | acceptance implies all seven required keys are present |
| `Validator.ValidateTradeIff` | TradeIngestionServiceCompleted.py:123-139 | the validator accepts exactly the candidates with positive quantity and price, an allowed symbol, a side and a status that are enumeration values, a timestamp and a source |
| `Validator.MissingKeyRejected` | TradeIngestionServiceCompleted.py:125-138 | any missing required key causes rejection |
| `Validator.OtherSpellingsRejected` | TradeIngestionServiceCompleted.py:131-134 | other spellings of side and status values ("BUY", "buy", "filled", "Cancelled", ...) are rejected |
| `Validator.NegativeQuantityRejected` | TradeIngestionServiceCompleted.py:125-126 | a candidate with quantity -5 is rejected |
| `Validator.ToDictValidates` | TradeIngestionServiceCompleted.py:49-59 | a serialised trade passes validation iff its symbol is allowed and its quantity and price are positive |
| `Validator.StampKeepsVerdict` | TradeIngestionServiceCompleted.py:110-113 | stamping a trade ID does not change the validator's verdict |
| `Sources.SymbolChoicesEnumerate` | TradeIngestionServiceCompleted.py:143 | the list a symbol is drawn from holds exactly the allow-list |
| `Sources.GenerateSampleTrade` | TradeIngestionServiceCompleted.py:141-158 | a generated candidate has an allowed symbol, quantity in [100, 1000], price in [50, 500], enumeration values for side and status, the current time, source "simulation", no ID, and it passes validation |
| `Sources.FetchFromApi` | TradeIngestionServiceCompleted.py:160-166 | a result comes back iff the coin is below 30%; it differs from the generated candidate only in carrying source "api", and it validates |
| `Sources.ApiSuccessRate` | TradeIngestionServiceCompleted.py:162 | exactly 30 of the 100 percent coins make the call succeed |
| `Sources.ObtainCandidate` | TradeIngestionServiceCompleted.py:98-108 | no candidate in Kafka mode or on a failed API call; any candidate obtained validates and carries the mode as its source |
| `Producer.Ingest` | TradeIngestionServiceCompleted.py:110-116 | one iteration either increments the counter by one and appends the candidate stamped with the new value (it stays valid), exactly when the candidate is present and valid, or changes nothing |
| `Producer.IngestAll` | TradeIngestionServiceCompleted.py:96-121 | a run of iterations only appends to the queue, and the queue grows in step with the counter |
| `Producer.IngestAllShape` | TradeIngestionServiceCompleted.py:110-114 | a run adds one to the counter per accepted candidate and appends exactly the accepted candidates, in order, stamped with the IDs that follow the old counter |
| `Producer.IdsFollowOn` | TradeIngestionServiceCompleted.py:111-114 | the k-th record a run appends is the k-th accepted candidate with ID old counter + 1 + k; earlier records stay in place |
| `Producer.IdsContiguous` | TradeIngestionServiceCompleted.py:110-114 | from counter 0 and an empty queue, N accepted candidates leave N records with IDs 1..N in order, and the counter at N |
| `Producer.QueuedRecordsComplete` | TradeIngestionServiceCompleted.py:110-114 | a queue of valid records that all carry an ID keeps that property through any run: no record is queued half-built |
| `Producer.AcceptedCount` | TradeIngestionServiceCompleted.py:98-110 | sources are never rejected: a run hands out one ID per iteration in simulation mode, one per successful call in API mode, and none in Kafka mode |
| `Service.InitialQueueAsWritten` | TradeIngestionServiceCompleted.py:72 | as written, a passed queue is used as is and no queue raises |
| `Service.DefaultQueueRaises` | TradeIngestionServiceCompleted.py:71-72 | constructing without a queue raises as written |
| `Service.InitialQueue` | TradeIngestionServiceCompleted.py:71-72 | the intended choice: the passed queue, or a fresh empty one |
| `Service.InitialQueueAgrees` | TradeIngestionServiceCompleted.py:72 | the intended choice agrees with the written one wherever that does not raise |
| `Service.IngestionService.constructor` | TradeIngestionServiceCompleted.py:71-77 | a new service is stopped with no worker, counter 0, simulation mode, and the given queue or an empty one |
| `Service.IngestionService.Start` | TradeIngestionServiceCompleted.py:79-85 | when a worker exists, nothing changes; otherwise running is set and a worker recorded; either way exactly one worker runs; counter and queue untouched |
| `Service.IngestionService.Stop` | TradeIngestionServiceCompleted.py:87-92 | running is cleared and no worker remains, from any state; counter and queue untouched |
| `Service.IngestionService.IngestCandidate` | TradeIngestionServiceCompleted.py:110-116 | a valid candidate increments the counter by one and is appended with the new counter as its ID; a rejected one leaves counter and queue unchanged |
| `Service.IngestionService.ProducerIteration` | TradeIngestionServiceCompleted.py:97-118 | one iteration has the effect of `Producer.Ingest` on the candidate obtained in the current mode; no candidate means no change |
| `Service.IngestionService.ProducerLoop` | TradeIngestionServiceCompleted.py:94-121 | while running, the loop's effect is that of its iterations in sequence; when not running it does nothing |
| `Service.RunTestScenario` | TradeIngestionServiceCompleted.py:170-195 | start, simulated iterations, stop and drain yield one record per iteration with IDs 1, 2, ... in order, so five iterations give at least five records |

## Findings

| source | as written | input that shows it | evidently intended | confidence | as-written member | corrected member |
|---|---|---|---|---|---|---|
| TradeIngestionServiceCompleted.py:72 | the constructor's parameter `queue` hides the `queue` module, so the fallback `queue.Queue()` is evaluated on `None` and raises | constructing the service with no queue argument | a fresh empty queue when none is passed | high (not executed) | `Service.InitialQueueAsWritten` with `Service.DefaultQueueRaises` | `Service.InitialQueue` with `Service.InitialQueueAgrees`, used by `Service.IngestionService.constructor` |

## Left out

- Threads, the running `Event`, daemon flags and the lock: the model is sequential. The worker is a boolean `hasWorker`, the counter increment is a plain assignment, and the producer loop runs one iteration per tick in the calling thread.
- `Service.IngestionService.ProducerLoop`: the running signal cannot change during the loop, because no other thread can call `Stop`. The ticks passed in stand for the iterations that happen before a stop is observed.
- `Service.IngestionService.Stop`: the bounded two-second join is not modelled. In the source, a join that times out still clears the worker while the old thread may still be running, so a later `start` can leave two producers for a while. The model assumes the worker has exited.
- Sleeps (`time.sleep` after no data, between iterations, and as error backoff): they only affect timing.
- Randomness: `random.choice`, `randint`, `uniform` and `random()` become parameters (`SampleDraw`, `Tick`). The 30% test on a float in [0, 1) becomes a whole percent coin below 30.
- Prices are `real`. Float arithmetic and `round(..., 2)` are not modelled: the draw is taken as already rounded into [50, 500].
- Timestamps are opaque strings. `datetime.now()` is a parameter, and `isoformat()` is not modelled: a `Trade` keeps its timestamp already in text form.
- `print` calls and the exception handler. Candidates are typed, so the comparison errors a malformed value would raise in the validator cannot occur. No other step of an iteration can fail in the model.
- `queue.Queue` internals: the queue is a sequence with a total `put`. A bounded queue whose `put` blocks or fails is not modelled. The counter is incremented before the `put`, so a failing `put` would skip an ID; ID contiguity is proved only for a total `put`.
- Dictionary keys other than the eight trade keys are not represented in `TradeData`.
- The data-source mode is changed only by assigning the `dataSource` field, as the source does with its attribute. No operation of the service changes it.
- `Service.RunTestScenario`: the ten-second wall-clock window is not modelled. The number of iterations that fit in it is a parameter, so the test routine's "at least five trades" holds exactly when at least five iterations ran.
- TradeIngestionService.py is not part of this model. Every service method in it is an unimplemented stub.
