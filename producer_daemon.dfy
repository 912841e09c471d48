/**
 * The producer daemon's buffering state machine (pkg/stream/producer_daemon.go).
 *
 * Two FIFO buffers are kept: `aggregate` holds raw messages waiting to be
 * folded into one carrier message, `batch` holds carrier messages waiting to be
 * cut into a batch for the output channel. The output channel is an
 * append-only sequence of batches with a closed flag.
 *
 * The step functions below (over the value `Buffers`) are the specification;
 * the class `Daemon` performs the same slice surgery on its fields and each
 * of its methods is proved to follow the matching step function.
 */
module ProducerDaemon {
  import opened Wrappers
  import opened Sequences

  /** The attribute that marks a carrier message as an aggregate. */
  const AttributeAggregate: string := "goso.aggregate"

  datatype AttributeValue = BoolAttribute(b: bool) | StringAttribute(s: string) | IntAttribute(i: int)

  type Attributes = map<string, AttributeValue>

  /** A writable message: an opaque body and its attributes. */
  datatype Message = Message(body: string, attributes: Attributes)

  /** The injected folding capability: N messages and attribute maps to one message, or an error. */
  type Marshaller = (seq<Message>, seq<Attributes>) -> Result<Message, string>

  /** The errors the daemon can report, each wrapping the layer below it. */
  datatype DaemonError =
    | MarshalAggregate(cause: string)                          // can not marshal aggregate
    | AggregationFailed(producer: string, inner: DaemonError)  // can not apply aggregation in producer
    | FlushAggregation(inner: DaemonError)                     // can not flush aggregation
    | FlushAllMessages(inner: DaemonError)                     // can not flush all messages
    | CreateOutput(producer: string, cause: string)            // can not create output for producer daemon

  /** The settings the buffering logic reads. */
  datatype Settings = Settings(batchSize: int, aggregationSize: int, messageAttributes: Attributes)
  {
    /** The `min=1` validation on batch_size and aggregation_size. */
    predicate Valid() { batchSize >= 1 && aggregationSize >= 1 }
  }

  /** Everything the buffering logic changes: both buffers and the output channel. */
  datatype Buffers = Buffers(aggregate: seq<Message>, batch: seq<Message>, out: seq<seq<Message>>, closed: bool)

  const Initial: Buffers := Buffers([], [], [], false)

  /** The new buffers together with what the operation returned. */
  datatype Step<T> = Step(next: Buffers, value: T)

  /** The length of the front slice cut from a buffer: the limit, or the whole buffer if shorter. */
  function FrontSize(limit: int, length: nat): (k: nat)
    requires limit >= 1
    ensures k <= length && k <= limit
    ensures k == length || k == limit
  {
    if length < limit then length else limit
  }

  /** Every dispatched batch is non-empty and holds at most `limit` messages. */
  ghost predicate BatchesBounded(out: seq<seq<Message>>, limit: int)
  {
    forall i :: 0 <= i < |out| ==> 1 <= |out[i]| <= limit
  }

  /** The carrier messages an aggregation step hands on to the batch buffer. */
  function Carriers(r: Result<seq<Message>, DaemonError>): seq<Message>
  {
    if r.Success? then r.value else []
  }

  /** The configured attribute maps followed by the aggregate flag, which comes last. */
  function AggregateAttributes(attributes: seq<Attributes>): (r: seq<Attributes>)
    ensures |r| == |attributes| + 1
    ensures forall i :: 0 <= i < |attributes| ==> r[i] == attributes[i]
    ensures r[|attributes|].Keys == {AttributeAggregate}
    ensures r[|attributes|][AttributeAggregate] == BoolAttribute(true)
  {
    attributes + [map[AttributeAggregate := BoolAttribute(true)]]
  }

  /** Folds the messages into one carrier message. */
  function BuildAggregateMessage(marshaller: Marshaller, aggregate: seq<Message>, attributes: seq<Attributes>): (r: Result<Message, string>)
    ensures r == marshaller(aggregate, attributes + [map[AttributeAggregate := BoolAttribute(true)]])
  {
    marshaller(aggregate, AggregateAttributes(attributes))
  }

  /** flushAggregate: fold the first min(AggregationSize, len) raw messages into one carrier. */
  function FlushAggregateStep(cfg: Settings, marshaller: Marshaller, b: Buffers): (r: Step<Result<seq<Message>, DaemonError>>)
    requires cfg.Valid()
    ensures r.next == b.(aggregate := r.next.aggregate)
    ensures |b.aggregate| - cfg.aggregationSize <= |r.next.aggregate| <= |b.aggregate|
    ensures |Carriers(r.value)| <= 1
  {
    if |b.aggregate| == 0 then Step(b, Success([]))
    else
      var size := FrontSize(cfg.aggregationSize, |b.aggregate|);
      var next := b.(aggregate := b.aggregate[size..]);
      match BuildAggregateMessage(marshaller, b.aggregate[..size], [cfg.messageAttributes])
      case Failure(e) => Step(next, Failure(MarshalAggregate(e)))
      case Success(m) => Step(next, Success([m]))
  }

  /** applyAggregation: pass through when disabled, otherwise buffer and fold once the threshold is reached. */
  function AggregationStep(cfg: Settings, marshaller: Marshaller, b: Buffers, input: seq<Message>): (r: Step<Result<seq<Message>, DaemonError>>)
    requires cfg.Valid()
    ensures r.next == b.(aggregate := r.next.aggregate)
    ensures cfg.aggregationSize > 1 ==> |Carriers(r.value)| <= 1
    ensures r.value.Failure? ==> cfg.aggregationSize > 1
  {
    if cfg.aggregationSize <= 1 then Step(b, Success(input))
    else
      var grown := b.(aggregate := b.aggregate + input);
      if |grown.aggregate| < cfg.aggregationSize then Step(grown, Success([]))
      else FlushAggregateStep(cfg, marshaller, grown)
  }

  /** flushBatch: push the first min(BatchSize, len) carriers onto the output channel. */
  function FlushBatchStep(cfg: Settings, b: Buffers): (r: Buffers)
    requires cfg.Valid()
    ensures r.aggregate == b.aggregate && r.closed == b.closed
    ensures |r.out| == |b.out| + (if b.batch == [] then 0 else 1)
    ensures |b.batch| - cfg.batchSize <= |r.batch| <= |b.batch|
  {
    if |b.batch| == 0 then b
    else
      var size := FrontSize(cfg.batchSize, |b.batch|);
      b.(batch := b.batch[size..], out := b.out + [b.batch[..size]])
  }

  /** Write: aggregate, append to the batch buffer, and flush one batch once the threshold is reached. */
  function WriteStep(cfg: Settings, name: string, marshaller: Marshaller, b: Buffers, input: seq<Message>): (r: Step<Option<DaemonError>>)
    requires cfg.Valid()
    ensures r.next.closed == b.closed
    ensures |b.out| <= |r.next.out| <= |b.out| + 1
    ensures r.value.Some? ==> r.next.batch == b.batch && r.next.out == b.out
  {
    var a := AggregationStep(cfg, marshaller, b, input);
    if a.value.Failure? then Step(a.next, Some(AggregationFailed(name, a.value.error)))
    else
      var appended := a.next.(batch := a.next.batch + a.value.value);
      if |appended.batch| < cfg.batchSize then Step(appended, None)
      else Step(FlushBatchStep(cfg, appended), None)
  }

  /** flushAll: the forced flush of one timer tick. */
  function FlushAllStep(cfg: Settings, marshaller: Marshaller, b: Buffers): (r: Step<Option<DaemonError>>)
    requires cfg.Valid()
    ensures r.next.closed == b.closed
    ensures |b.out| <= |r.next.out| <= |b.out| + 1
    ensures r.value.Some? ==> r.next.batch == b.batch && r.next.out == b.out
  {
    var a := FlushAggregateStep(cfg, marshaller, b);
    if a.value.Failure? then Step(a.next, Some(FlushAggregation(a.value.error)))
    else Step(FlushBatchStep(cfg, a.next.(batch := a.next.batch + a.value.value)), None)
  }

  /** close: the forced flush, then the output channel is closed whatever the flush reported. */
  function CloseStep(cfg: Settings, marshaller: Marshaller, b: Buffers): (r: Step<Option<DaemonError>>)
    requires cfg.Valid()
    ensures r.next.closed
    ensures r.value.Some? <==> FlushAllStep(cfg, marshaller, b).value.Some?
  {
    var f := FlushAllStep(cfg, marshaller, b);
    Step(f.next.(closed := true), if f.value.Some? then Some(FlushAllMessages(f.value.value)) else None)
  }

  /** A sequence of Write calls, the last input written last. */
  function WriteAll(cfg: Settings, name: string, marshaller: Marshaller, b: Buffers, inputs: seq<seq<Message>>): Buffers
    requires cfg.Valid()
  {
    if inputs == [] then b
    else WriteStep(cfg, name, marshaller, WriteAll(cfg, name, marshaller, b, inputs[..|inputs| - 1]), inputs[|inputs| - 1]).next
  }

  // ---------------------------------------------------------------------------
  // Aggregation

  /** With aggregation disabled the input passes through and the aggregate buffer is not touched. */
  lemma AggregationDisabledPassesThrough(cfg: Settings, marshaller: Marshaller, b: Buffers, input: seq<Message>)
    requires cfg.Valid() && cfg.aggregationSize <= 1
    ensures AggregationStep(cfg, marshaller, b, input) == Step(b, Success(input))
  {
  }

  /** Below the threshold the input is appended and nothing is returned. */
  lemma AggregationAccumulates(cfg: Settings, marshaller: Marshaller, b: Buffers, input: seq<Message>)
    requires cfg.Valid() && cfg.aggregationSize > 1
    requires |b.aggregate| + |input| < cfg.aggregationSize
    ensures AggregationStep(cfg, marshaller, b, input) == Step(b.(aggregate := b.aggregate + input), Success([]))
  {
  }

  /**
   * At or above the threshold exactly the first AggregationSize raw messages
   * are folded into one carrier, with the configured attributes followed by
   * the aggregate flag; the rest stay buffered in order, however many there are.
   */
  lemma AggregationFoldsExactlyThreshold(cfg: Settings, marshaller: Marshaller, b: Buffers, input: seq<Message>)
    requires cfg.Valid() && cfg.aggregationSize > 1
    requires |b.aggregate| + |input| >= cfg.aggregationSize
    ensures var all := b.aggregate + input;
            var r := AggregationStep(cfg, marshaller, b, input);
            var attributes := [cfg.messageAttributes, map[AttributeAggregate := BoolAttribute(true)]];
            && r.next == b.(aggregate := all[cfg.aggregationSize..])
            && all[..cfg.aggregationSize] + r.next.aggregate == all
            && (marshaller(all[..cfg.aggregationSize], attributes).Success? ==>
                  r.value == Success([marshaller(all[..cfg.aggregationSize], attributes).value]))
            && (marshaller(all[..cfg.aggregationSize], attributes).Failure? ==>
                  r.value == Failure(MarshalAggregate(marshaller(all[..cfg.aggregationSize], attributes).error)))
  {
    var all := b.aggregate + input;
    assert AggregateAttributes([cfg.messageAttributes]) == [cfg.messageAttributes, map[AttributeAggregate := BoolAttribute(true)]];
    assert all[..cfg.aggregationSize] + all[cfg.aggregationSize..] == all;
  }

  /** flushAggregate on an empty buffer returns nothing and changes nothing. */
  lemma FlushAggregateEmptyIsNoop(cfg: Settings, marshaller: Marshaller, b: Buffers)
    requires cfg.Valid() && b.aggregate == []
    ensures FlushAggregateStep(cfg, marshaller, b) == Step(b, Success([]))
  {
  }

  /**
   * flushAggregate removes exactly the first min(AggregationSize, len) raw
   * messages, keeps the remainder in order and touches nothing else; it hands
   * on at most one carrier.
   */
  lemma FlushAggregateRemovesPrefix(cfg: Settings, marshaller: Marshaller, b: Buffers)
    requires cfg.Valid()
    ensures var r := FlushAggregateStep(cfg, marshaller, b);
            var k := if |b.aggregate| < cfg.aggregationSize then |b.aggregate| else cfg.aggregationSize;
            && r.next == b.(aggregate := b.aggregate[k..])
            && b.aggregate[..k] + r.next.aggregate == b.aggregate
            && |Carriers(r.value)| == (if b.aggregate == [] || r.value.Failure? then 0 else 1)
  {
    var k := if |b.aggregate| < cfg.aggregationSize then |b.aggregate| else cfg.aggregationSize;
    assert b.aggregate[..k] + b.aggregate[k..] == b.aggregate;
  }

  /**
   * A fold failure loses the removed prefix: it is not put back into the
   * aggregate buffer, and Write reports an error without touching the batch
   * buffer or the output channel.
   */
  lemma MarshalFailureLosesPrefix(cfg: Settings, name: string, marshaller: Marshaller, b: Buffers, input: seq<Message>)
    requires cfg.Valid() && cfg.aggregationSize > 1
    requires |b.aggregate| + |input| >= cfg.aggregationSize
    requires marshaller((b.aggregate + input)[..cfg.aggregationSize], AggregateAttributes([cfg.messageAttributes])).Failure?
    ensures var r := WriteStep(cfg, name, marshaller, b, input);
            && r.next == b.(aggregate := (b.aggregate + input)[cfg.aggregationSize..])
            && r.value.Some? && r.value.value.AggregationFailed?
            && r.value.value.inner.MarshalAggregate?
  {
  }

  // ---------------------------------------------------------------------------
  // Batching and conservation

  /** flushBatch on an empty buffer changes nothing. */
  lemma FlushBatchEmptyIsNoop(cfg: Settings, b: Buffers)
    requires cfg.Valid() && b.batch == []
    ensures FlushBatchStep(cfg, b) == b
  {
  }

  /**
   * flushBatch pushes the front min(BatchSize, len) carriers as one batch and
   * keeps the rest: the dispatched batches followed by the pending buffer are
   * the same carriers in the same order, and batches stay within bounds.
   */
  lemma FlushBatchConserves(cfg: Settings, b: Buffers, r: Buffers)
    requires cfg.Valid() && r == FlushBatchStep(cfg, b)
    ensures Flatten(r.out) + r.batch == Flatten(b.out) + b.batch
    ensures r.aggregate == b.aggregate && r.closed == b.closed
    ensures |r.out| == |b.out| + (if b.batch == [] then 0 else 1)
    ensures r.out[..|b.out|] == b.out
    ensures b.batch != [] ==> r.out[|b.out|] == b.batch[..FrontSize(cfg.batchSize, |b.batch|)]
    ensures BatchesBounded(b.out, cfg.batchSize) ==> BatchesBounded(r.out, cfg.batchSize)
  {
    if b.batch != [] {
      var size := FrontSize(cfg.batchSize, |b.batch|);
      FlattenAppend(b.out, b.batch[..size]);
      assert b.batch[..size] + b.batch[size..] == b.batch;
    }
  }

  /**
   * Write dispatches at most one batch and only once the batch buffer reached
   * BatchSize; that batch holds exactly BatchSize carriers. Every carrier the
   * aggregation handed on is accounted for, in arrival order.
   */
  lemma WriteConserves(cfg: Settings, name: string, marshaller: Marshaller, b: Buffers, input: seq<Message>,
                       a: Step<Result<seq<Message>, DaemonError>>, r: Step<Option<DaemonError>>)
    requires cfg.Valid()
    requires a == AggregationStep(cfg, marshaller, b, input) && r == WriteStep(cfg, name, marshaller, b, input)
    ensures Flatten(r.next.out) + r.next.batch == Flatten(b.out) + b.batch + Carriers(a.value)
    ensures r.next.aggregate == a.next.aggregate && r.next.closed == b.closed
    ensures r.next.out[..|b.out|] == b.out
    ensures r.value.None? && |b.batch + Carriers(a.value)| >= cfg.batchSize <==> |r.next.out| == |b.out| + 1
    ensures |r.next.out| == |b.out| || |r.next.out| == |b.out| + 1
    ensures |r.next.out| == |b.out| + 1 ==> |r.next.out[|b.out|]| == cfg.batchSize
    ensures BatchesBounded(b.out, cfg.batchSize) ==> BatchesBounded(r.next.out, cfg.batchSize)
    ensures r.value.Some? <==> a.value.Failure?
  {
    if a.value.Success? {
      var appended := a.next.(batch := a.next.batch + a.value.value);
      assert a.next.batch == b.batch && a.next.out == b.out;
      if |appended.batch| >= cfg.batchSize {
        FlushBatchConserves(cfg, appended, FlushBatchStep(cfg, appended));
      }
    }
  }

  /**
   * Write flushes at most one batch, so after a large write the pending batch
   * can itself still hold BatchSize carriers or more.
   */
  lemma WriteLeavesFullBatchPending()
    ensures var cfg := Settings(2, 1, map[]);
            var m := Message("m", map[]);
            var r := WriteStep(cfg, "p", (ms, attrs) => Failure("unused"), Initial, [m, m, m, m, m]);
            && r.next.out == [[m, m]]
            && |r.next.batch| == 3 >= cfg.batchSize
  {
    var cfg := Settings(2, 1, map[]);
    var m := Message("m", map[]);
    var input := [m, m, m, m, m];
    var marshaller: Marshaller := (ms, attrs) => Failure("unused");
    assert AggregationStep(cfg, marshaller, Initial, input) == Step(Initial, Success(input));
    var appended := Initial.(batch := [] + input);
    assert appended.batch == input;
    assert FlushBatchStep(cfg, appended) == appended.(batch := input[2..], out := [input[..2]]);
    assert input[..2] == [m, m];
    assert input[2..] == [m, m, m];
  }

  /** Every batch from index `from` on holds exactly `size` messages. */
  ghost predicate FullBatchesFrom(out: seq<seq<Message>>, from: nat, size: int)
  {
    forall i :: from <= i < |out| ==> |out[i]| == size
  }

  /** One write with aggregation disabled: its input is appended in order and any batch it dispatches is full. */
  lemma WriteWithoutAggregation(cfg: Settings, name: string, marshaller: Marshaller, b: Buffers, input: seq<Message>, r: Buffers)
    requires cfg.Valid() && cfg.aggregationSize <= 1
    requires r == WriteStep(cfg, name, marshaller, b, input).next
    ensures Flatten(r.out) + r.batch == Flatten(b.out) + b.batch + input
    ensures r.aggregate == b.aggregate && r.closed == b.closed
    ensures |b.out| <= |r.out| && r.out[..|b.out|] == b.out
    ensures FullBatchesFrom(r.out, |b.out|, cfg.batchSize)
  {
    WriteConserves(cfg, name, marshaller, b, input, AggregationStep(cfg, marshaller, b, input), WriteStep(cfg, name, marshaller, b, input));
  }

  /**
   * With aggregation disabled, any sequence of writes keeps every message:
   * the dispatched batches followed by the pending buffer are the old ones
   * followed by all inputs in order, and every batch a write dispatched holds
   * exactly BatchSize messages.
   */
  lemma {:induction false} WritesWithoutAggregationConserve(cfg: Settings, name: string, marshaller: Marshaller, b: Buffers,
                                                            inputs: seq<seq<Message>>, r: Buffers)
    requires cfg.Valid() && cfg.aggregationSize <= 1
    requires r == WriteAll(cfg, name, marshaller, b, inputs)
    ensures Flatten(r.out) + r.batch == Flatten(b.out) + b.batch + Flatten(inputs)
    ensures r.aggregate == b.aggregate && r.closed == b.closed
    ensures |b.out| <= |r.out| && r.out[..|b.out|] == b.out
    ensures FullBatchesFrom(r.out, |b.out|, cfg.batchSize)
    decreases |inputs|
  {
    if inputs != [] {
      var init := inputs[..|inputs| - 1];
      var last := inputs[|inputs| - 1];
      var mid := WriteAll(cfg, name, marshaller, b, init);
      assert r == WriteStep(cfg, name, marshaller, mid, last).next;
      WritesWithoutAggregationConserve(cfg, name, marshaller, b, init, mid);
      WriteWithoutAggregation(cfg, name, marshaller, mid, last, r);
      assert inputs == init + [last];
      FlattenAppend(init, last);
      ConservingChain(b, mid, r, Flatten(init), last, cfg.batchSize);
    }
  }

  /** Two conserving stretches of writes, the second after the first, make one. */
  lemma ConservingChain(b: Buffers, mid: Buffers, r: Buffers, first: seq<Message>, second: seq<Message>, size: int)
    requires Flatten(mid.out) + mid.batch == Flatten(b.out) + b.batch + first
    requires Flatten(r.out) + r.batch == Flatten(mid.out) + mid.batch + second
    requires |b.out| <= |mid.out| && mid.out[..|b.out|] == b.out
    requires |mid.out| <= |r.out| && r.out[..|mid.out|] == mid.out
    requires FullBatchesFrom(mid.out, |b.out|, size) && FullBatchesFrom(r.out, |mid.out|, size)
    ensures Flatten(r.out) + r.batch == Flatten(b.out) + b.batch + (first + second)
    ensures |b.out| <= |r.out| && r.out[..|b.out|] == b.out
    ensures FullBatchesFrom(r.out, |b.out|, size)
  {
    assert r.out[..|b.out|] == mid.out[..|b.out|];
    forall i | |b.out| <= i < |r.out|
      ensures |r.out[i]| == size
    {
      if i < |mid.out| {
        assert r.out[i] == r.out[..|mid.out|][i];
      }
    }
  }

  // ---------------------------------------------------------------------------
  // Forced flush and close

  /**
   * A forced flush folds at most AggregationSize raw messages: a larger
   * remainder stays in the aggregate buffer.
   */
  lemma ForcedFlushKeepsAggregateRemainder(cfg: Settings, marshaller: Marshaller, b: Buffers)
    requires cfg.Valid() && |b.aggregate| > cfg.aggregationSize
    ensures var r := FlushAllStep(cfg, marshaller, b);
            && r.next.aggregate == b.aggregate[cfg.aggregationSize..]
            && r.next.aggregate != []
  {
  }

  /**
   * A forced flush dispatches a short, non-empty batch below the threshold,
   * and with both buffers empty it changes nothing: a second forced flush
   * without writes in between produces no further output.
   */
  lemma ForcedFlushDispatchesShortBatch(cfg: Settings, marshaller: Marshaller, b: Buffers)
    requires cfg.Valid() && b.aggregate == [] && 0 < |b.batch| < cfg.batchSize
    ensures var r := FlushAllStep(cfg, marshaller, b);
            && r.value.None?
            && r.next == b.(batch := [], out := b.out + [b.batch])
            && FlushAllStep(cfg, marshaller, r.next) == Step(r.next, None)
  {
    assert b.batch + [] == b.batch;
    assert b.batch[..|b.batch|] == b.batch;
  }

  /** A forced flush hands every carrier it produced on to the output, in order, and dispatches at most one batch. */
  lemma FlushAllConserves(cfg: Settings, marshaller: Marshaller, b: Buffers, a: Step<Result<seq<Message>, DaemonError>>, r: Step<Option<DaemonError>>)
    requires cfg.Valid()
    requires a == FlushAggregateStep(cfg, marshaller, b) && r == FlushAllStep(cfg, marshaller, b)
    ensures Flatten(r.next.out) + r.next.batch == Flatten(b.out) + b.batch + Carriers(a.value)
    ensures r.next.aggregate == a.next.aggregate && r.next.closed == b.closed
    ensures r.next.out[..|b.out|] == b.out && |r.next.out| <= |b.out| + 1
    ensures BatchesBounded(b.out, cfg.batchSize) ==> BatchesBounded(r.next.out, cfg.batchSize)
    ensures r.value.Some? <==> a.value.Failure?
  {
    assert a.next.batch == b.batch && a.next.out == b.out && a.next.closed == b.closed;
    if a.value.Success? {
      var appended := a.next.(batch := b.batch + a.value.value);
      FlushBatchConserves(cfg, appended, FlushBatchStep(cfg, appended));
      assert Flatten(b.out) + appended.batch == Flatten(b.out) + b.batch + a.value.value;
    }
  }

  /** close closes the output channel even when the forced flush fails, and reports that failure. */
  lemma CloseAlwaysCloses(cfg: Settings, marshaller: Marshaller, b: Buffers)
    requires cfg.Valid()
    ensures var f := FlushAllStep(cfg, marshaller, b);
            var r := CloseStep(cfg, marshaller, b);
            && r.next.closed
            && r.next == f.next.(closed := true)
            && (r.value.Some? <==> f.value.Some?)
            && (f.value.Some? ==> r.value == Some(FlushAllMessages(f.value.value)))
  {
  }

  /**
   * Twenty-five messages written at once with BatchSize 10 and aggregation
   * disabled: the write dispatches one batch of 10, the first forced flush a
   * second batch of 10, and the second forced flush the last 5.
   */
  lemma TwentyFiveMessagesInOneWrite(ms: seq<Message>, marshaller: Marshaller)
    requires |ms| == 25
    ensures var cfg := Settings(10, 1, map[]);
            var w := WriteStep(cfg, "p", marshaller, Initial, ms).next;
            var f1 := FlushAllStep(cfg, marshaller, w).next;
            var f2 := FlushAllStep(cfg, marshaller, f1).next;
            && w.out == [ms[..10]] && w.batch == ms[10..]
            && f1.out == [ms[..10], ms[10..20]] && f1.batch == ms[20..]
            && f2.out == [ms[..10], ms[10..20], ms[20..]] && f2.batch == []
  {
    var cfg := Settings(10, 1, map[]);
    assert AggregationStep(cfg, marshaller, Initial, ms) == Step(Initial, Success(ms));
    var appended := Initial.(batch := [] + ms);
    assert appended.batch == ms;
    var w := FlushBatchStep(cfg, appended);
    assert w == Initial.(batch := ms[10..], out := [ms[..10]]);
    assert WriteStep(cfg, "p", marshaller, Initial, ms).next == w;

    assert FlushAggregateStep(cfg, marshaller, w) == Step(w, Success([]));
    assert w.batch + [] == w.batch;
    var f1 := FlushBatchStep(cfg, w);
    assert ms[10..][..10] == ms[10..20];
    assert ms[10..][10..] == ms[20..];
    assert f1 == Initial.(batch := ms[20..], out := [ms[..10], ms[10..20]]);
    assert FlushAllStep(cfg, marshaller, w).next == f1;

    assert FlushAggregateStep(cfg, marshaller, f1) == Step(f1, Success([]));
    assert f1.batch + [] == f1.batch;
    var f2 := FlushBatchStep(cfg, f1);
    assert ms[20..][..5] == ms[20..];
    assert ms[20..][5..] == [];
    assert f2 == Initial.(batch := [], out := [ms[..10], ms[10..20], ms[20..]]);
  }

  // ---------------------------------------------------------------------------
  // The daemon object

  class Daemon {
    const name: string
    const settings: Settings
    const marshaller: Marshaller

    var aggregate: seq<Message>
    var batch: seq<Message>
    /** The output channel: the batches pushed so far and whether it was closed. */
    var outBatches: seq<seq<Message>>
    var outClosed: bool

    /** Every carrier message that ever entered the batch buffer, in arrival order. */
    ghost var carriers: seq<Message>

    /** Settings are valid, no carrier is lost or duplicated, and every dispatched batch is within bounds. */
    ghost predicate Valid()
      reads this
    {
      && settings.Valid()
      && Flatten(outBatches) + batch == carriers
      && BatchesBounded(outBatches, settings.batchSize)
    }

    function State(): Buffers
      reads this
    {
      Buffers(aggregate, batch, outBatches, outClosed)
    }

    constructor (name: string, settings: Settings, marshaller: Marshaller)
      requires settings.Valid()
      ensures Valid()
      ensures this.name == name && this.settings == settings && this.marshaller == marshaller
      ensures State() == Initial && carriers == []
    {
      this.name := name;
      this.settings := settings;
      this.marshaller := marshaller;
      aggregate := [];
      batch := [];
      outBatches := [];
      outClosed := false;
      carriers := [];
    }

    method ApplyAggregation(input: seq<Message>) returns (r: Result<seq<Message>, DaemonError>)
      requires Valid()
      modifies this
      ensures Valid() && carriers == old(carriers)
      ensures Step(State(), r) == AggregationStep(settings, marshaller, old(State()), input)
    {
      if settings.aggregationSize <= 1 {
        return Success(input);
      }
      aggregate := aggregate + input;
      if |aggregate| < settings.aggregationSize {
        return Success([]);
      }
      r := FlushAggregate();
    }

    method FlushAggregate() returns (r: Result<seq<Message>, DaemonError>)
      requires Valid()
      modifies this
      ensures Valid() && carriers == old(carriers)
      ensures Step(State(), r) == FlushAggregateStep(settings, marshaller, old(State()))
    {
      if |aggregate| == 0 {
        return Success([]);
      }
      var size := settings.aggregationSize;
      if |aggregate| < size {
        size := |aggregate|;
      }
      var ready := aggregate[..size];
      aggregate := aggregate[size..];
      var built := BuildAggregateMessage(marshaller, ready, [settings.messageAttributes]);
      if built.Failure? {
        return Failure(MarshalAggregate(built.error));
      }
      return Success([built.value]);
    }

    method FlushBatch()
      requires Valid()
      modifies this
      ensures Valid() && carriers == old(carriers)
      ensures State() == FlushBatchStep(settings, old(State()))
    {
      FlushBatchConserves(settings, State(), FlushBatchStep(settings, State()));
      if |batch| == 0 {
        return;
      }
      var size := settings.batchSize;
      if |batch| < size {
        size := |batch|;
      }
      var ready := batch[..size];
      batch := batch[size..];
      outBatches := outBatches + [ready];
    }

    method Write(input: seq<Message>) returns (err: Option<DaemonError>)
      requires Valid()
      modifies this
      ensures Valid()
      ensures Step(State(), err) == WriteStep(settings, name, marshaller, old(State()), input)
      ensures carriers == old(carriers) + Carriers(AggregationStep(settings, marshaller, old(State()), input).value)
    {
      var carried := ApplyAggregation(input);
      if carried.Failure? {
        return Some(AggregationFailed(name, carried.error));
      }
      batch := batch + carried.value;
      carriers := carriers + carried.value;
      if |batch| < settings.batchSize {
        return None;
      }
      FlushBatch();
      return None;
    }

    /** WriteOne: a Write of the single message. */
    method WriteOne(msg: Message) returns (err: Option<DaemonError>)
      requires Valid()
      modifies this
      ensures Valid()
      ensures Step(State(), err) == WriteStep(settings, name, marshaller, old(State()), [msg])
      ensures carriers == old(carriers) + Carriers(AggregationStep(settings, marshaller, old(State()), [msg]).value)
    {
      err := Write([msg]);
    }

    method FlushAll() returns (err: Option<DaemonError>)
      requires Valid()
      modifies this
      ensures Valid()
      ensures Step(State(), err) == FlushAllStep(settings, marshaller, old(State()))
      ensures carriers == old(carriers) + Carriers(FlushAggregateStep(settings, marshaller, old(State())).value)
    {
      var carried := FlushAggregate();
      if carried.Failure? {
        return Some(FlushAggregation(carried.error));
      }
      batch := batch + carried.value;
      carriers := carriers + carried.value;
      FlushBatch();
      return None;
    }

    method Close() returns (err: Option<DaemonError>)
      requires Valid()
      modifies this
      ensures Valid() && outClosed
      ensures Step(State(), err) == CloseStep(settings, marshaller, old(State()))
    {
      var flushed := FlushAll();
      // the close of the output channel is deferred: it runs on both paths
      outClosed := true;
      if flushed.Some? {
        return Some(FlushAllMessages(flushed.value));
      }
      return None;
    }
  }

  /** The name-keyed table of daemons; a failed construction leaves a null entry behind. */
  class Registry {
    var daemons: map<string, Daemon?>

    constructor ()
      ensures daemons == map[]
    {
      daemons := map[];
    }

    method Reset()
      modifies this
      ensures daemons == map[]
    {
      daemons := map[];
    }

    /**
     * Lookup-or-create. `outputError` is the outcome of creating the daemon's
     * output, the only step of construction that can fail.
     */
    method Provide(name: string, settings: Settings, marshaller: Marshaller, outputError: Option<string>)
      returns (d: Daemon?, err: Option<DaemonError>)
      requires settings.Valid()
      modifies this
      ensures name in old(daemons) ==> d == old(daemons)[name] && err == None && daemons == old(daemons)
      ensures name !in old(daemons) && outputError.Some? ==>
                d == null && err == Some(CreateOutput(name, outputError.value))
                && daemons == old(daemons)[name := null]
      ensures name !in old(daemons) && outputError.None? ==>
                d != null && fresh(d) && err == None && daemons == old(daemons)[name := d]
                && d.Valid() && d.name == name && d.settings == settings && d.marshaller == marshaller
                && d.State() == Initial && d.carriers == []
    {
      if name in daemons {
        return daemons[name], None;
      }
      if outputError.Some? {
        daemons := daemons[name := null];
        return null, Some(CreateOutput(name, outputError.value));
      }
      var created := new Daemon(name, settings, marshaller);
      daemons := daemons[name := created];
      return created, None;
    }
  }
}
