/**
 * Metric datum logic of the CloudWatch metric writer (pkg/mon/metric_writer_cw.go):
 * the canonical dimension key and id of a datum, its validity check, the
 * filter that turns a batch into CloudWatch data, and the chunked upload.
 *
 * A datum is an object because the filter stamps a zero timestamp with the
 * current time in place, which the caller sees. Instants are integers in
 * nanoseconds, the unit of Go's time.Duration, and `ZeroTime` stands for Go's
 * zero time.Time. The clock's "now" is a parameter.
 */
module MetricWriter {
  import opened Wrappers
  import opened Sequences
  import opened GoStrings

  const PriorityLow: int := 1
  const PriorityHigh: int := 2
  const ChunkSizeCloudWatch: nat := 20

  const Hour: int := 3_600_000_000_000
  const MinusOneWeek: int := -7 * 24 * Hour
  const PlusOneHour: int := Hour
  const ZeroTime: int := 0

  type Dimensions = map<string, string>

  datatype ValidityError = MissingMetricName | NoPriority(metricName: string) | NoUnit(metricName: string)

  /** The "name:value" form of one dimension. */
  function Flat(name: string, value: string): string
  {
    name + ":" + value
  }

  ghost function PickName(dims: Dimensions): string
    requires dims != map[]
  {
    var n :| n in dims; n
  }

  /** The flattened dimensions, in one fixed but arbitrary order. */
  ghost function Flats(dims: Dimensions): seq<string>
    decreases |dims|
  {
    if dims == map[] then []
    else
      var n := PickName(dims);
      assert |dims - {n}| < |dims| by { assert (dims - {n}).Keys == dims.Keys - {n}; }
      [Flat(n, dims[n])] + Flats(dims - {n})
  }

  /** Whichever dimension is taken first, the same flattened strings remain. */
  lemma {:induction false} FlatsAnyName(dims: Dimensions, n: string)
    requires n in dims
    ensures multiset(Flats(dims)) == multiset{Flat(n, dims[n])} + multiset(Flats(dims - {n}))
    decreases |dims|
  {
    var p := PickName(dims);
    var withoutP := dims - {p};
    assert Flats(dims) == [Flat(p, dims[p])] + Flats(withoutP);
    if p != n {
      var withoutN := dims - {n};
      assert |withoutP| < |dims| by { assert withoutP.Keys == dims.Keys - {p}; }
      assert |withoutN| < |dims| by { assert withoutN.Keys == dims.Keys - {n}; }
      assert withoutP[n] == dims[n] && withoutN[p] == dims[p];
      var both := withoutP - {n};
      assert both == withoutN - {p};
      FlatsAnyName(withoutP, n);
      FlatsAnyName(withoutN, p);
      var rest := multiset(Flats(both));
      calc {
        multiset(Flats(dims));
        multiset{Flat(p, dims[p])} + multiset(Flats(withoutP));
        multiset{Flat(p, dims[p])} + (multiset{Flat(n, dims[n])} + rest);
        multiset{Flat(n, dims[n])} + (multiset{Flat(p, dims[p])} + rest);
        multiset{Flat(n, dims[n])} + multiset(Flats(withoutN));
      }
    }
  }

  /** The dimension key: the sorted "name:value" strings joined with "-". */
  ghost function CanonicalDimensionKey(dims: Dimensions): string
  {
    Join(SortStrings(Flats(dims)), "-")
  }

  /** Any sorted arrangement of the flattened dimensions joins to the dimension key. */
  lemma DimensionKeyIsSortedJoin(dims: Dimensions, s: seq<string>)
    requires Sorted(s) && multiset(s) == multiset(Flats(dims))
    ensures CanonicalDimensionKey(dims) == Join(s, "-")
  {
    SortedUnique(s, SortStrings(Flats(dims)));
  }

  /** Visits the dimensions in whatever order the map yields them. */
  method FlattenDimensions(dimensions: Dimensions) returns (dims: seq<string>)
    ensures multiset(dims) == multiset(Flats(dimensions))
  {
    dims := [];
    var rest := dimensions;
    while rest != map[]
      invariant multiset(dims) + multiset(Flats(rest)) == multiset(Flats(dimensions))
      decreases |rest|
    {
      var n :| n in rest;
      FlattenStep(dims, rest, n);
      dims := dims + [Flat(n, rest[n])];
      rest := rest - {n};
    }
  }

  /** Moving one dimension from the map to the flattened list keeps the multiset of flattened strings. */
  lemma FlattenStep(dims: seq<string>, rest: Dimensions, n: string)
    requires n in rest
    ensures multiset(dims + [Flat(n, rest[n])]) + multiset(Flats(rest - {n})) == multiset(dims) + multiset(Flats(rest))
    ensures |rest - {n}| < |rest|
  {
    FlatsAnyName(rest, n);
    assert multiset(dims + [Flat(n, rest[n])]) == multiset(dims) + multiset{Flat(n, rest[n])};
    assert (rest - {n}).Keys == rest.Keys - {n};
  }

  /** The plain values of a datum. */
  datatype DatumValue = DatumValue(priority: int, timestamp: int, metricName: string, dimensions: Dimensions, value: real, unit: string)

  /** A datum in the form sent to CloudWatch. */
  datatype CwDatum = CwDatum(metricName: string, dimensions: Dimensions, timestamp: int, value: real, unit: string)

  class MetricDatum {
    const priority: int
    var timestamp: int
    const metricName: string
    const dimensions: Dimensions
    const value: real
    const unit: string

    constructor (priority: int, timestamp: int, metricName: string, dimensions: Dimensions, value: real, unit: string)
      ensures Snapshot() == DatumValue(priority, timestamp, metricName, dimensions, value, unit)
    {
      this.priority := priority;
      this.timestamp := timestamp;
      this.metricName := metricName;
      this.dimensions := dimensions;
      this.value := value;
      this.unit := unit;
    }

    function Snapshot(): DatumValue
      reads this
    {
      DatumValue(priority, timestamp, metricName, dimensions, value, unit)
    }

    /** Flattens the dimensions, sorts the strings and joins them. */
    method DimensionKey() returns (key: string)
      ensures key == CanonicalDimensionKey(dimensions)
    {
      var dims := FlattenDimensions(dimensions);
      var sorted := SortStrings(dims);
      DimensionKeyIsSortedJoin(dimensions, sorted);
      key := Join(sorted, "-");
    }

    method Id() returns (id: string)
      ensures id == metricName + ":" + CanonicalDimensionKey(dimensions)
    {
      var key := DimensionKey();
      id := metricName + ":" + key;
    }

    /** The first missing piece, checked in the order name, priority, unit. */
    function IsValid(): (r: Option<ValidityError>)
      ensures r == None <==> metricName != "" && priority != 0 && unit != ""
      ensures metricName == "" ==> r == Some(MissingMetricName)
      ensures metricName != "" && priority == 0 ==> r == Some(NoPriority(metricName))
      ensures metricName != "" && priority != 0 && unit == "" ==> r == Some(NoUnit(metricName))
    {
      if metricName == "" then Some(MissingMetricName)
      else if priority == 0 then Some(NoPriority(metricName))
      else if unit == "" then Some(NoUnit(metricName))
      else None
    }
  }

  /** The priority the CloudWatch writer accepts: high only. */
  function GetPriority(): (r: int)
    ensures r == PriorityHigh && PriorityLow < r
  {
    PriorityHigh
  }

  /** A zero timestamp stands for "now". */
  function Stamp(v: DatumValue, now: int): (s: DatumValue)
    ensures s.timestamp == (if v.timestamp == ZeroTime then now else v.timestamp)
    ensures s == v.(timestamp := s.timestamp)
  {
    if v.timestamp == ZeroTime then v.(timestamp := now) else v
  }

  /** CloudWatch accepts data from one week before now to one hour after now. */
  predicate InWindow(t: int, now: int)
  {
    now + MinusOneWeek <= t <= now + PlusOneHour
  }

  predicate DimensionsComplete(dims: Dimensions)
  {
    forall n :: n in dims ==> n != "" && dims[n] != ""
  }

  function ToCloudWatch(v: DatumValue): CwDatum
  {
    CwDatum(v.metricName, v.dimensions, v.timestamp, v.value, v.unit)
  }

  /**
   * What the filter keeps of one datum. `validate` stands for the AWS SDK's
   * own datum validation.
   */
  function Admit(v: DatumValue, now: int, validate: CwDatum -> bool): (r: Option<CwDatum>)
    ensures r.Some? <==>
              && v.priority >= PriorityHigh
              && InWindow(Stamp(v, now).timestamp, now)
              && DimensionsComplete(v.dimensions)
              && validate(ToCloudWatch(Stamp(v, now)))
    ensures r.Some? ==> r.value == ToCloudWatch(Stamp(v, now))
  {
    if v.priority < GetPriority() then None
    else
      var s := Stamp(v, now);
      if s.timestamp < now + MinusOneWeek || s.timestamp > now + PlusOneHour then None
      else if !DimensionsComplete(s.dimensions) then None
      else if !validate(ToCloudWatch(s)) then None
      else Some(ToCloudWatch(s))
  }

  /** The data kept from a batch, in batch order. */
  function Surviving(values: seq<DatumValue>, now: int, validate: CwDatum -> bool): (r: seq<CwDatum>)
    ensures |r| <= |values|
  {
    if values == [] then []
    else
      var last := Admit(values[|values| - 1], now, validate);
      Surviving(values[..|values| - 1], now, validate) + (if last.Some? then [last.value] else [])
  }

  /** Every survivor is inside the time window, has complete dimensions and passes `validate`. */
  lemma {:induction false} SurvivorsAreValid(values: seq<DatumValue>, now: int, validate: CwDatum -> bool)
    ensures forall k :: 0 <= k < |Surviving(values, now, validate)| ==>
              var r := Surviving(values, now, validate)[k];
              InWindow(r.timestamp, now) && DimensionsComplete(r.dimensions) && validate(r)
  {
    if values != [] {
      SurvivorsAreValid(values[..|values| - 1], now, validate);
    }
  }

  /** Each datum is judged on its own, and survivors keep their input order. */
  lemma {:induction false} SurvivingConcat(a: seq<DatumValue>, b: seq<DatumValue>, now: int, validate: CwDatum -> bool)
    ensures Surviving(a + b, now, validate) == Surviving(a, now, validate) + Surviving(b, now, validate)
    decreases |b|
  {
    if b == [] {
      assert a + b == a;
    } else {
      SurvivingConcat(a, b[..|b| - 1], now, validate);
      assert (a + b)[..|a + b| - 1] == a + b[..|b| - 1];
      assert (a + b)[|a + b| - 1] == b[|b| - 1];
    }
  }

  /** Low-priority data and data outside the time window never survive. */
  lemma SurvivingDropsLowPriorityAndStale(values: seq<DatumValue>, v: DatumValue, now: int, validate: CwDatum -> bool)
    requires v.priority < PriorityHigh || !InWindow(Stamp(v, now).timestamp, now) || !DimensionsComplete(v.dimensions)
    ensures Surviving(values + [v], now, validate) == Surviving(values, now, validate)
  {
    assert (values + [v])[..|values|] == values;
  }

  /** One more value: the survivors so far, followed by that value's admitted datum if any. */
  lemma SurvivingSnoc(values: seq<DatumValue>, i: nat, now: int, validate: CwDatum -> bool, kept: Option<CwDatum>)
    requires i < |values| && kept == Admit(values[i], now, validate)
    ensures kept.None? ==> Surviving(values[..i + 1], now, validate) == Surviving(values[..i], now, validate)
    ensures kept.Some? ==> Surviving(values[..i + 1], now, validate) == Surviving(values[..i], now, validate) + [kept.value]
  {
    assert values[..i + 1][..i] == values[..i];
  }

  /**
   * Admission looks at a datum only after stamping it, so a datum whose zero
   * timestamp was already replaced by `now` is admitted as before.
   */
  lemma AdmitSameStamp(v: DatumValue, w: DatumValue, now: int, validate: CwDatum -> bool)
    requires Stamp(v, now) == Stamp(w, now)
    ensures Admit(v, now, validate) == Admit(w, now, validate)
  {
  }

  function Snapshots(batch: seq<MetricDatum>): (r: seq<DatumValue>)
    reads batch
    ensures |r| == |batch| && forall i :: 0 <= i < |batch| ==> r[i] == batch[i].Snapshot()
  {
    if batch == [] then [] else Snapshots(batch[..|batch| - 1]) + [batch[|batch| - 1].Snapshot()]
  }

  /** The inner loop over a datum's dimensions: complete iff no name or value is empty. */
  method CheckDimensions(dims: Dimensions) returns (complete: bool)
    ensures complete == DimensionsComplete(dims)
  {
    complete := true;
    var rest := dims;
    while rest != map[]
      invariant forall n :: n in rest ==> n in dims && rest[n] == dims[n]
      invariant complete <==> forall n :: n in dims && n !in rest ==> n != "" && dims[n] != ""
      decreases |rest|
    {
      var n :| n in rest;
      if n == "" || rest[n] == "" {
        complete := false;
      }
      rest := rest - {n};
    }
  }

  /**
   * One round of the loop in buildMetricData: a high-priority datum with a
   * zero timestamp is stamped with `now` in place, and the datum is kept when
   * it is high-priority, inside the time window, has complete dimensions and
   * passes `validate`.
   */
  method AdmitDatum(d: MetricDatum, now: int, validate: CwDatum -> bool) returns (kept: Option<CwDatum>)
    modifies d
    ensures kept == Admit(old(d.Snapshot()), now, validate)
    ensures d.timestamp == (if d.priority >= PriorityHigh && old(d.timestamp) == ZeroTime then now else old(d.timestamp))
  {
    if d.priority < GetPriority() {
      return None;
    }
    if d.timestamp == ZeroTime {
      d.timestamp := now;
    }
    if d.timestamp < now + MinusOneWeek || d.timestamp > now + PlusOneHour {
      return None;
    }
    var complete := CheckDimensions(d.dimensions);
    if !complete {
      return None;
    }
    var datum := CwDatum(d.metricName, d.dimensions, d.timestamp, d.value, d.unit);
    if !validate(datum) {
      return None;
    }
    return Some(datum);
  }

  /**
   * buildMetricData: keeps the data `Surviving` describes, in batch order,
   * and stamps, in place, every high-priority datum whose timestamp is zero,
   * whether or not it is dropped later. The same datum may occur more than
   * once in the batch.
   */
  method BuildMetricData(batch: seq<MetricDatum>, now: int, validate: CwDatum -> bool) returns (data: seq<CwDatum>)
    modifies batch
    ensures data == Surviving(old(Snapshots(batch)), now, validate)
    ensures forall j :: 0 <= j < |batch| ==>
              batch[j].timestamp == (if batch[j].priority >= PriorityHigh && old(batch[j].timestamp) == ZeroTime then now else old(batch[j].timestamp))
  {
    ghost var before := Snapshots(batch);
    ghost var visited: set<MetricDatum> := {};
    SnapshotsAreValues(batch, before, now);
    data := [];
    var i := 0;
    while i < |batch|
      invariant 0 <= i <= |batch|
      invariant data == Surviving(before[..i], now, validate)
      invariant forall j :: 0 <= j < i ==> batch[j] in visited
      invariant StampedAsVisited(batch, before, visited, now)
    {
      var d := batch[i];
      var kept := VisitDatum(d, now, validate, batch, before, visited, i);
      SurvivingSnoc(before, i, now, validate, kept);
      if kept.Some? {
        data := data + [kept.value];
      }
      forall j | 0 <= j < i + 1
        ensures batch[j] in visited + {d}
      {
      }
      visited := visited + {d};
      i := i + 1;
    }
    assert before[..|batch|] == before;
  }

  /** A datum's values with the given timestamp; only the timestamp of a datum ever changes. */
  function ValueAt(d: MetricDatum, timestamp: int): DatumValue
  {
    DatumValue(d.priority, timestamp, d.metricName, d.dimensions, d.value, d.unit)
  }

  /**
   * The timestamps of a batch whose values were `before` once the data in
   * `visited` went through the loop: each visited high-priority datum that
   * had a zero timestamp now has `now`, every other datum its old timestamp.
   */
  ghost predicate StampedAsVisited(batch: seq<MetricDatum>, before: seq<DatumValue>, visited: set<MetricDatum>, now: int)
    reads batch
  {
    && |before| == |batch|
    && (forall j :: 0 <= j < |batch| ==> before[j] == ValueAt(batch[j], before[j].timestamp))
    && (forall j :: 0 <= j < |batch| ==>
          batch[j].timestamp == (if batch[j] in visited && before[j].priority >= PriorityHigh && before[j].timestamp == ZeroTime then now else before[j].timestamp))
  }

  lemma SnapshotsAreValues(batch: seq<MetricDatum>, before: seq<DatumValue>, now: int)
    requires before == Snapshots(batch)
    ensures StampedAsVisited(batch, before, {}, now)
  {
  }

  /** One round of the loop, seen from the whole batch: `d` joins the visited data. */
  method VisitDatum(d: MetricDatum, now: int, validate: CwDatum -> bool, ghost batch: seq<MetricDatum>, ghost before: seq<DatumValue>, ghost visited: set<MetricDatum>, ghost i: nat)
    returns (kept: Option<CwDatum>)
    requires StampedAsVisited(batch, before, visited, now)
    requires i < |batch| && batch[i] == d
    modifies d
    ensures kept == Admit(before[i], now, validate)
    ensures StampedAsVisited(batch, before, visited + {d}, now)
  {
    AdmitSameStamp(d.Snapshot(), before[i], now, validate);
    kept := AdmitDatum(d, now, validate);
  }

  datatype MetricSettings = MetricSettings(enabled: bool, project: string, environment: string, family: string, application: string)

  /** The namespace: project, environment, family and application joined by "/". */
  function Namespace(s: MetricSettings): (r: string)
    ensures r == Join([s.project, s.environment, s.family, s.application], "/")
  {
    var parts := [s.project, s.environment, s.family, s.application];
    assert Join(parts[2..], "/") == s.family + "/" + s.application by {
      assert parts[2..][1..] == [s.application];
    }
    assert Join(parts[1..], "/") == s.environment + "/" + (s.family + "/" + s.application) by {
      assert parts[1..][1..] == parts[2..];
    }
    s.project + "/" + s.environment + "/" + s.family + "/" + s.application
  }

  /** One PutMetricData request. */
  datatype PutMetricDataInput = PutMetricDataInput(namespace: string, metricData: seq<CwDatum>)

  /** The length of the first chunk of `length` data: 20, or all of them when fewer remain. */
  function FirstChunkLength(length: nat): (n: nat)
    ensures n <= length && n <= ChunkSizeCloudWatch
    ensures length > 0 ==> n > 0
    ensures n < ChunkSizeCloudWatch ==> n == length
  {
    if length < ChunkSizeCloudWatch then length else ChunkSizeCloudWatch
  }

  /**
   * The requests for `data`: the first chunk of 20, then the requests for the
   * rest; there are as many requests as the ceiling of the data length over 20.
   */
  function ChunksOf(namespace: string, data: seq<CwDatum>): (r: seq<PutMetricDataInput>)
    ensures |data| <= |r| * ChunkSizeCloudWatch < |data| + ChunkSizeCloudWatch
    decreases |data|
  {
    if data == [] then []
    else
      var n := FirstChunkLength(|data|);
      assert n < ChunkSizeCloudWatch ==> data[n..] == [];
      [PutMetricDataInput(namespace, data[..n])] + ChunksOf(namespace, data[n..])
  }

  /** The metric data of each request, in order. */
  function ChunkData(calls: seq<PutMetricDataInput>): (r: seq<seq<CwDatum>>)
    ensures |r| == |calls| && forall k :: 0 <= k < |calls| ==> r[k] == calls[k].metricData
  {
    seq(|calls|, k requires 0 <= k < |calls| => calls[k].metricData)
  }

  lemma ChunkDataConcat(a: seq<PutMetricDataInput>, b: seq<PutMetricDataInput>)
    ensures ChunkData(a + b) == ChunkData(a) + ChunkData(b)
  {
  }

  /**
   * The upload loop: consecutive chunks of 20 (the last one shorter) that
   * cover the data in order. A failed PutMetricData call is only logged, so
   * every chunk is sent whatever the earlier calls returned.
   */
  method PutChunks(namespace: string, data: seq<CwDatum>) returns (calls: seq<PutMetricDataInput>)
    ensures calls == ChunksOf(namespace, data)
  {
    calls := [];
    var i := 0;
    while i < |data|
      invariant calls + ChunksOf(namespace, data[Min(i, |data|)..]) == ChunksOf(namespace, data)
    {
      var end := i + ChunkSizeCloudWatch;
      if end > |data| {
        end := |data|;
      }
      ChunksOfUnfold(namespace, data, i, end);
      calls := calls + [PutMetricDataInput(namespace, data[i..end])];
      i := i + ChunkSizeCloudWatch;
    }
    assert data[|data|..] == [];
  }

  function Min(a: int, b: int): int
  {
    if a < b then a else b
  }

  /** One step of the loop: the requests for data[i..] are the chunk i..end, then those for data[end..]. */
  lemma ChunksOfUnfold(namespace: string, data: seq<CwDatum>, i: nat, end: nat)
    requires i < |data| && end == Min(i + ChunkSizeCloudWatch, |data|)
    ensures ChunksOf(namespace, data[i..]) == [PutMetricDataInput(namespace, data[i..end])] + ChunksOf(namespace, data[end..])
  {
    var rest := data[i..];
    var n := FirstChunkLength(|rest|);
    assert rest[..n] == data[i..end];
    assert rest[n..] == data[end..];
  }

  /** The requests carry all the data, in order and without repetition. */
  lemma {:induction false} ChunksOfCoverData(namespace: string, data: seq<CwDatum>)
    ensures Flatten(ChunkData(ChunksOf(namespace, data))) == data
    decreases |data|
  {
    if data != [] {
      var n := FirstChunkLength(|data|);
      var head := [PutMetricDataInput(namespace, data[..n])];
      var tail := ChunksOf(namespace, data[n..]);
      ChunksOfCoverData(namespace, data[n..]);
      CoverDataStep(namespace, head, tail, data[..n], data[n..]);
      assert data[..n] + data[n..] == data;
    }
  }

  /** The data of one request followed by those of further requests. */
  lemma CoverDataStep(namespace: string, head: seq<PutMetricDataInput>, tail: seq<PutMetricDataInput>, first: seq<CwDatum>, rest: seq<CwDatum>)
    requires head == [PutMetricDataInput(namespace, first)]
    requires Flatten(ChunkData(tail)) == rest
    ensures Flatten(ChunkData(head + tail)) == first + rest
  {
    assert ChunkData(head) == [] + [first];
    ChunkDataConcat(head, tail);
    FlattenConcat(ChunkData(head), ChunkData(tail));
    FlattenAppend([], first);
  }

  /**
   * Every request is in the namespace and holds between 1 and 20 data; every
   * request but the last holds exactly 20.
   */
  ghost predicate WellSized(namespace: string, calls: seq<PutMetricDataInput>)
  {
    forall k :: 0 <= k < |calls| ==>
      && calls[k].namespace == namespace
      && 1 <= |calls[k].metricData| <= ChunkSizeCloudWatch
      && (k < |calls| - 1 ==> |calls[k].metricData| == ChunkSizeCloudWatch)
  }

  lemma {:induction false} ChunksOfSizes(namespace: string, data: seq<CwDatum>)
    ensures WellSized(namespace, ChunksOf(namespace, data))
    decreases |data|
  {
    if data != [] {
      var n := FirstChunkLength(|data|);
      var calls := ChunksOf(namespace, data);
      var tail := ChunksOf(namespace, data[n..]);
      ChunksOfSizes(namespace, data[n..]);
      assert calls == [PutMetricDataInput(namespace, data[..n])] + tail;
      if n < ChunkSizeCloudWatch {
        assert data[n..] == [];
      }
      forall k | 1 <= k < |calls|
        ensures calls[k] == tail[k - 1]
      {
      }
    }
  }

  /**
   * cwWriter.Write: nothing happens when the writer is disabled or the batch
   * is empty; otherwise the surviving data are built (stamping zero
   * timestamps in place) and sent in chunks.
   */
  method Write(settings: MetricSettings, batch: seq<MetricDatum>, now: int, validate: CwDatum -> bool)
    returns (calls: seq<PutMetricDataInput>)
    modifies batch
    ensures !settings.enabled || |batch| == 0 ==>
              calls == [] && forall d :: d in batch ==> d.timestamp == old(d.timestamp)
    ensures settings.enabled && |batch| > 0 ==>
              calls == ChunksOf(Namespace(settings), Surviving(old(Snapshots(batch)), now, validate))
    ensures settings.enabled && |batch| > 0 ==> forall d :: d in batch ==>
              d.timestamp == (if d.priority >= PriorityHigh && old(d.timestamp) == ZeroTime then now else old(d.timestamp))
  {
    if !settings.enabled || |batch| == 0 {
      return [];
    }
    var data := BuildMetricData(batch, now, validate);
    calls := PutChunks(Namespace(settings), data);
  }

  /** WriteOne: a Write of the single datum. */
  method WriteOne(settings: MetricSettings, datum: MetricDatum, now: int, validate: CwDatum -> bool)
    returns (calls: seq<PutMetricDataInput>)
    modifies datum
    ensures !settings.enabled ==> calls == [] && datum.timestamp == old(datum.timestamp)
    ensures settings.enabled ==> calls == ChunksOf(Namespace(settings), Surviving([old(datum.Snapshot())], now, validate))
    ensures settings.enabled ==>
              datum.timestamp == (if datum.priority >= PriorityHigh && old(datum.timestamp) == ZeroTime then now else old(datum.timestamp))
  {
    assert Snapshots([datum]) == [datum.Snapshot()];
    calls := Write(settings, [datum], now, validate);
  }
}
