/**
 * What the producer loop does to the service's ID counter and queue,
 * iteration by iteration, as functions of the candidates it obtains.
 */
module Producer {
  import opened Wrappers
  import opened Trades
  import opened Validator
  import opened Sources

  /** The counter of assigned IDs and the contents of the queue. */
  datatype Snapshot = Snapshot(counter: nat, queue: seq<TradeData>)

  /**
   * One iteration given the candidate it obtained, if any: an accepted
   * candidate takes the next ID and joins the end of the queue; a rejected
   * candidate or no candidate changes nothing.
   */
  function Ingest(s: Snapshot, fetched: Option<TradeData>): (s': Snapshot)
    ensures s.queue <= s'.queue
    ensures |s'.queue| - |s.queue| == s'.counter - s.counter
    ensures s'.counter == s.counter + 1 <==> fetched.Some? && ValidateTrade(fetched.value)
    ensures s'.counter != s.counter + 1 ==> s' == s
    ensures s'.counter == s.counter + 1 ==>
              s'.queue[|s.queue|].tradeId == Some(s'.counter)
              && ValidateTrade(s'.queue[|s.queue|])
              && s'.queue[|s.queue|].(tradeId := fetched.value.tradeId) == fetched.value
  {
    match fetched
    case None => s
    case Some(c) =>
      if ValidateTrade(c) then
        StampKeepsVerdict(c, s.counter + 1);
        Snapshot(s.counter + 1, s.queue + [c.(tradeId := Some(s.counter + 1))])
      else
        s
  }

  /** The iterations over a sequence of fetch results, in order. */
  function IngestAll(s: Snapshot, fs: seq<Option<TradeData>>): (s': Snapshot)
    ensures s.queue <= s'.queue
    ensures |s'.queue| - |s.queue| == s'.counter - s.counter
  {
    if fs == [] then s else Ingest(IngestAll(s, fs[..|fs| - 1]), fs[|fs| - 1])
  }

  /** The candidates among the fetch results that pass validation, in order. */
  function Accepted(fs: seq<Option<TradeData>>): (cs: seq<TradeData>)
    ensures |cs| <= |fs|
    ensures forall j :: 0 <= j < |cs| ==> ValidateTrade(cs[j])
  {
    if fs == [] then []
    else
      var last := fs[|fs| - 1];
      Accepted(fs[..|fs| - 1]) + (if last.Some? && ValidateTrade(last.value) then [last.value] else [])
  }

  /** The candidates stamped with the consecutive IDs first, first + 1, ... */
  function Stamp(cs: seq<TradeData>, first: int): seq<TradeData>
  {
    if cs == [] then []
    else Stamp(cs[..|cs| - 1], first) + [cs[|cs| - 1].(tradeId := Some(first + |cs| - 1))]
  }

  /** Stamping keeps each candidate and gives the j-th one the ID first + j. */
  lemma {:induction false} StampAt(cs: seq<TradeData>, first: int, j: nat)
    requires j < |cs|
    ensures |Stamp(cs, first)| == |cs|
    ensures Stamp(cs, first)[j] == cs[j].(tradeId := Some(first + j))
  {
    var init := cs[..|cs| - 1];
    if j < |cs| - 1 {
      StampAt(init, first, j);
    } else if |init| > 0 {
      StampAt(init, first, 0);
    }
  }

  /**
   * A run of iterations increments the counter once per accepted candidate
   * and appends exactly the accepted candidates, stamped with the IDs that
   * follow the old counter, leaving what was already queued in place.
   */
  lemma {:induction false} IngestAllShape(s: Snapshot, fs: seq<Option<TradeData>>)
    ensures IngestAll(s, fs) == Snapshot(s.counter + |Accepted(fs)|, s.queue + Stamp(Accepted(fs), s.counter + 1))
  {
    if fs != [] {
      var init := fs[..|fs| - 1];
      var last := fs[|fs| - 1];
      IngestAllShape(s, init);
      var acc := Accepted(init);
      if last.Some? && ValidateTrade(last.value) {
        assert Accepted(fs) == acc + [last.value];
        assert (acc + [last.value])[..|acc|] == acc;
      } else {
        assert Accepted(fs) == acc;
      }
    }
  }

  /** The k-th stamped candidate sits right after what was queued before. */
  lemma StampedAfter(queued: seq<TradeData>, cs: seq<TradeData>, first: int, k: nat)
    requires k < |cs|
    ensures |queued + Stamp(cs, first)| == |queued| + |cs|
    ensures (queued + Stamp(cs, first))[|queued| + k] == cs[k].(tradeId := Some(first + k))
  {
    StampAt(cs, first, k);
  }

  /**
   * IDs follow on from the counter without gaps or repeats: the k-th record
   * added by a run carries the ID old counter + 1 + k and is the k-th
   * accepted candidate, and the counter ends at the last ID handed out.
   */
  lemma {:induction false} IdsFollowOn(s: Snapshot, fs: seq<Option<TradeData>>)
    ensures var s' := IngestAll(s, fs);
      && s'.counter == s.counter + |Accepted(fs)|
      && |s'.queue| == |s.queue| + |Accepted(fs)|
      && s.queue <= s'.queue
      && forall k :: 0 <= k < |Accepted(fs)| ==>
           s'.queue[|s.queue| + k] == Accepted(fs)[k].(tradeId := Some(s.counter + 1 + k))
  {
    var acc := Accepted(fs);
    IngestAllShape(s, fs);
    forall k | 0 <= k < |acc|
      ensures (s.queue + Stamp(acc, s.counter + 1))[|s.queue| + k] == acc[k].(tradeId := Some(s.counter + 1 + k))
    {
      StampedAfter(s.queue, acc, s.counter + 1, k);
    }
  }

  /**
   * From a fresh counter and an empty queue, after N accepted candidates
   * the queue holds exactly N records with IDs 1..N in order.
   */
  lemma {:induction false} IdsContiguous(fs: seq<Option<TradeData>>)
    ensures var s' := IngestAll(Snapshot(0, []), fs);
      && |s'.queue| == s'.counter == |Accepted(fs)|
      && forall j :: 0 <= j < |s'.queue| ==> s'.queue[j].tradeId == Some(j + 1)
  {
    var acc := Accepted(fs);
    var s' := IngestAll(Snapshot(0, []), fs);
    IngestAllShape(Snapshot(0, []), fs);
    assert s'.queue == Stamp(acc, 1) by {
      assert [] + Stamp(acc, 1) == Stamp(acc, 1);
    }
    if acc == [] {
      assert Stamp(acc, 1) == [];
    } else {
      StampAt(acc, 1, 0);
    }
    forall j | 0 <= j < |s'.queue|
      ensures s'.queue[j].tradeId == Some(j + 1)
    {
      StampAt(acc, 1, j);
    }
  }


  /**
   * No record in the queue is half-built: if every queued record was a
   * valid trade record with an ID before a run, so is every record after it.
   */
  lemma {:induction false} QueuedRecordsComplete(s: Snapshot, fs: seq<Option<TradeData>>)
    requires forall j :: 0 <= j < |s.queue| ==> s.queue[j].tradeId.Some? && ValidateTrade(s.queue[j])
    ensures var q := IngestAll(s, fs).queue;
      forall j :: 0 <= j < |q| ==> q[j].tradeId.Some? && ValidateTrade(q[j])
  {
    IdsFollowOn(s, fs);
    var acc := Accepted(fs);
    var q := IngestAll(s, fs).queue;
    forall j | 0 <= j < |q|
      ensures q[j].tradeId.Some? && ValidateTrade(q[j])
    {
      if j < |s.queue| {
        assert q[j] == q[..|s.queue|][j];
      } else {
        var k := j - |s.queue|;
        assert q[|s.queue| + k] == acc[k].(tradeId := Some(s.counter + 1 + k));
        StampKeepsVerdict(acc[k], s.counter + 1 + k);
      }
    }
  }

  /** Every draw of a tick sequence lies in its range. */
  predicate AllInRange(ticks: seq<Tick>) {
    forall j :: 0 <= j < |ticks| ==> InDrawRange(ticks[j].draw)
  }

  /** What each of a sequence of iterations obtains in the given mode. */
  function FetchAll(mode: DataSource, ticks: seq<Tick>): (fs: seq<Option<TradeData>>)
    requires AllInRange(ticks)
    ensures |fs| == |ticks|
    ensures forall j :: 0 <= j < |ticks| ==> fs[j] == ObtainCandidate(mode, ticks[j])
  {
    seq(|ticks|, j requires 0 <= j < |ticks| => ObtainCandidate(mode, ticks[j]))
  }

  /** The number of ticks whose coin makes the API call succeed. */
  function ApiSuccesses(ticks: seq<Tick>): nat
  {
    if ticks == [] then 0
    else ApiSuccesses(ticks[..|ticks| - 1]) + (if ticks[|ticks| - 1].coin < ApiSuccessPercent then 1 else 0)
  }

  /**
   * No candidate from a source is ever rejected, so the number of IDs a run
   * hands out is the number of iterations in simulation mode, the number of
   * successful calls in API mode, and zero in Kafka mode.
   */
  lemma {:induction false} AcceptedCount(mode: DataSource, ticks: seq<Tick>)
    requires AllInRange(ticks)
    ensures |Accepted(FetchAll(mode, ticks))| ==
      match mode
      case Simulation => |ticks|
      case Api => ApiSuccesses(ticks)
      case Kafka => 0
  {
    if ticks != [] {
      var init := ticks[..|ticks| - 1];
      assert AllInRange(init);
      assert FetchAll(mode, ticks)[..|ticks| - 1] == FetchAll(mode, init);
      AcceptedCount(mode, init);
    }
  }
}
