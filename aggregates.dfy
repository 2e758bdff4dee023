/**
 * Aggregate descriptors: constructor validation and the JSON object each
 * aggregate's `build_json` fills, key by key, for `pdb.agg(...)`.
 */
module Aggregates {
  import opened Wrappers
  import opened Values
  import opened Json

  // ------------------------------------------------------------- orders

  /** The two sort directions both order classes accept. */
  type Direction = s: string | s == "asc" || s == "desc" witness "asc"

  /** The order check: only the strings `asc` and `desc` pass. */
  function ParseDirection(order: Json): (r: Result<Direction>)
    ensures r.Ok? <==> order == JStr("asc") || order == JStr("desc")
    ensures r.Ok? ==> order == JStr(r.value)
    ensures r.Err? ==> r.error == ValueError
  {
    if order == JStr("asc") then Ok("asc")
    else if order == JStr("desc") then Ok("desc")
    else Err(ValueError)
  }

  /** `TermAggregateOrder`: a target (`_count`, `_key` or a metric name) and a direction. */
  datatype TermOrder = TermOrder(target: string, order: Direction)

  function NewTermOrder(target: string, order: Json): (r: Result<TermOrder>)
    ensures r.Ok? <==> ParseDirection(order).Ok?
    ensures r.Ok? ==> r.value.target == target && JStr(r.value.order) == order
    ensures r.Err? ==> r.error == ValueError
  {
    var d :- ParseDirection(order);
    Ok(TermOrder(target, d))
  }

  /** `to_json`: the one-entry object `{target: order}`. */
  function TermOrderJson(o: TermOrder): (r: Members)
    ensures Keys(r) == [o.target] && Get(r, o.target) == Some(JStr(o.order))
  {
    [(o.target, JStr(o.order))]
  }

  /** `TermAggregateOrder.from_dict`: the first entry of the dict; an empty dict is rejected. */
  function TermOrderFromDict(d: Members): (r: Result<TermOrder>)
    ensures |d| == 0 ==> r == Err(ValueError)
    ensures |d| > 0 ==> r == NewTermOrder(d[0].0, d[0].1)
  {
    if |d| == 0 then Err(ValueError) else NewTermOrder(d[0].0, d[0].1)
  }

  /** `to_json` and `from_dict` are inverse: a one-entry dict that parses renders back to itself. */
  lemma TermOrderRoundTrip(o: TermOrder)
    ensures TermOrderFromDict(TermOrderJson(o)) == Ok(o)
  {
  }

  /** `TopHitSort`: a field and a direction. */
  datatype TopHitSort = TopHitSort(field: string, order: Direction)

  function NewTopHitSort(field: string, order: Json): (r: Result<TopHitSort>)
    ensures r.Ok? <==> ParseDirection(order).Ok?
    ensures r.Ok? ==> r.value.field == field && JStr(r.value.order) == order
    ensures r.Err? ==> r.error == ValueError
  {
    var d :- ParseDirection(order);
    Ok(TopHitSort(field, d))
  }

  /** `to_json`: the one-entry object `{field: order}`. */
  function SortJson(s: TopHitSort): Json
  {
    JObject([(s.field, JStr(s.order))])
  }

  // ---------------------------------------------------------------- Count

  /** `Count(field)`: `{"value_count": {"field": str(field)}}`; the field defaults to `id`. */
  function CountJson(field: Scalar): (r: Members)
    ensures Keys(r) == ["value_count"]
    ensures r[0].1 == JObject([("field", JStr(PyStr(field)))])
  {
    [("value_count", JObject([("field", JStr(PyStr(field)))]))]
  }

  // ----------------------------------------------------------------- Term

  /** What `Term` accepts as its order: an order object, a dict, or something else (rejected). */
  datatype OrderArg = OrderObject(o: TermOrder) | OrderDict(d: Members) | OrderOther

  datatype Term = Term(
    field: string,
    order: Option<TermOrder>,
    size: int,
    segmentSize: int,
    minDocCount: int,
    missing: Option<Json>,
    showTermDocCountError: bool,
    aggs: Option<Json>)

  /** `Term(...)`: the order must be an order object or a dict; a dict is read with `from_dict`. */
  function NewTerm(field: string, order: Option<OrderArg>, size: int, segmentSize: int, minDocCount: int,
                   missing: Option<Json>, showTermDocCountError: bool, aggs: Option<Json>): (r: Result<Term>)
    ensures order.Some? && order.value.OrderOther? ==> r == Err(ValueError)
    ensures order.Some? && order.value.OrderDict? ==>
      (r.Ok? <==> TermOrderFromDict(order.value.d).Ok?) &&
      (r.Ok? ==> r.value.order == Some(TermOrderFromDict(order.value.d).value))
    ensures order.None? ==>
      r == Ok(Term(field, None, size, segmentSize, minDocCount, missing, showTermDocCountError, aggs))
    ensures order.Some? && order.value.OrderObject? ==>
      r == Ok(Term(field, Some(order.value.o), size, segmentSize, minDocCount, missing, showTermDocCountError, aggs))
    ensures r.Ok? ==>
      r.value == Term(field, r.value.order, size, segmentSize, minDocCount, missing, showTermDocCountError, aggs)
    ensures r.Err? ==> r.error == ValueError
  {
    var o :- match order
             case None => Ok(None)
             case Some(OrderObject(o)) => Ok(Some(o))
             case Some(OrderDict(d)) => var o :- TermOrderFromDict(d); Ok(Some(o))
             case Some(OrderOther) => Err(ValueError);
    Ok(Term(field, o, size, segmentSize, minDocCount, missing, showTermDocCountError, aggs))
  }

  /** The keys `Term.build_json` writes into `terms` after `field`, each with its condition. */
  function TermEntries(t: Term): seq<(string, Option<Json>)>
  {
    [("order", if t.order.Some? then Some(JObject(TermOrderJson(t.order.value))) else None),
     ("size", if t.size > 0 then Some(JInt(t.size)) else None),
     ("segment_size", if t.segmentSize > 0 then Some(JInt(t.segmentSize)) else None),
     ("min_doc_count", if t.minDocCount > 0 then Some(JInt(t.minDocCount)) else None),
     ("missing", t.missing),
     ("show_term_doc_count_error", if t.showTermDocCountError then Some(JBool(true)) else None)]
  }

  /** The `terms` object. */
  function TermsObject(t: Term): Members
  {
    AssignAll([("field", JStr(t.field))], TermEntries(t))
  }

  /** `Term.build_json(as_dict=True)`: `terms`, and `aggs` beside it when given. */
  function TermJson(t: Term): Members
  {
    PutIf([("terms", JObject(TermsObject(t)))], "aggs", t.aggs)
  }

  lemma TermEntriesDistinct(t: Term)
    ensures DistinctNames(TermEntries(t))
    ensures forall j :: 0 <= j < |TermEntries(t)| ==> TermEntries(t)[j].0 !in Keys([("field", JStr(t.field))])
  {
    var ps := TermEntries(t);
    assert Keys([("field", JStr(t.field))]) == ["field"];
  }

  /**
   * `terms` always names the field; `size`, `segment_size` and `min_doc_count`
   * appear only when positive, `missing` only when given, the error flag only
   * when set, and each key once.
   */
  lemma TermLayout(t: Term)
    ensures Get(TermsObject(t), "field") == Some(JStr(t.field))
    ensures Get(TermsObject(t), "order") == if t.order.Some? then Some(JObject(TermOrderJson(t.order.value))) else None
    ensures Get(TermsObject(t), "size") == if t.size > 0 then Some(JInt(t.size)) else None
    ensures Get(TermsObject(t), "segment_size") == if t.segmentSize > 0 then Some(JInt(t.segmentSize)) else None
    ensures Get(TermsObject(t), "min_doc_count") == if t.minDocCount > 0 then Some(JInt(t.minDocCount)) else None
    ensures Get(TermsObject(t), "missing") == t.missing
    ensures Get(TermsObject(t), "show_term_doc_count_error") == if t.showTermDocCountError then Some(JBool(true)) else None
    ensures UniqueKeys(TermsObject(t))
  {
    var ps := TermEntries(t);
    var fixed := [("field", JStr(t.field))];
    TermEntriesDistinct(t);
    AssignAllKeeps(fixed, ps, "field");
    AssignAllAt(fixed, ps, 0);
    AssignAllAt(fixed, ps, 1);
    AssignAllAt(fixed, ps, 2);
    AssignAllAt(fixed, ps, 3);
    AssignAllAt(fixed, ps, 4);
    AssignAllAt(fixed, ps, 5);
    AssignAllKeys(fixed, ps);
  }

  /** `aggs` sits beside `terms`, never inside it. */
  lemma TermAggsBeside(t: Term)
    ensures Keys(TermJson(t)) == if t.aggs.Some? then ["terms", "aggs"] else ["terms"]
    ensures Get(TermJson(t), "aggs") == t.aggs
    ensures Get(TermsObject(t), "aggs").None?
  {
    if t.aggs.Some? {
      PutNew([("terms", JObject(TermsObject(t)))], "aggs", t.aggs.value);
    }
    var ps := TermEntries(t);
    TermEntriesDistinct(t);
    AssignAllKeeps([("field", JStr(t.field))], ps, "aggs");
  }

  // ----------------------------------------------------------- histograms

  /** `HistogramBound`. */
  datatype Bound = Bound(min: Json, max: Json)

  /** A bound as given: an object, or a list/tuple to be read with `from_tuple`. */
  datatype BoundArg = BoundObject(b: Bound) | BoundTuple(items: seq<Json>)

  /** Python truthiness of a bound argument: an object always, a tuple when non-empty. */
  predicate TruthyBound(a: Option<BoundArg>)
  {
    a.Some? && (a.value.BoundTuple? ==> |a.value.items| > 0)
  }

  /** `HistogramBound.from_tuple`: exactly two items. */
  function BoundFromTuple(items: seq<Json>): (r: Result<Bound>)
    ensures r.Ok? <==> |items| == 2
    ensures r.Ok? ==> r.value == Bound(items[0], items[1])
    ensures r.Err? ==> r.error == AssertionError
  {
    if |items| == 2 then Ok(Bound(items[0], items[1])) else Err(AssertionError)
  }

  function ResolveBound(a: Option<BoundArg>): (r: Result<Option<Bound>>)
    ensures r.Ok? ==> (r.value.Some? <==> a.Some?)
    ensures r.Err? ==> r.error == AssertionError
  {
    match a
    case None => Ok(None)
    case Some(BoundObject(b)) => Ok(Some(b))
    case Some(BoundTuple(items)) => var b :- BoundFromTuple(items); Ok(Some(b))
  }

  /** `as_json`: `{min, max}`. */
  function BoundJson(b: Bound): Members
  {
    [("min", b.min), ("max", b.max)]
  }

  /**
   * `Histogram` and `DateHistogram`: the date variant calls its interval
   * `fixed_interval` (which may be `None`) and has no `is_normalized_to_ns`.
   */
  datatype Histogram = Histogram(
    date: bool,
    field: string,
    interval: Option<string>,
    offset: Option<string>,
    minDocCount: Option<int>,
    hardBounds: Option<Bound>,
    extendedBounds: Option<Bound>,
    keyed: Option<bool>,
    isNormalizedToNs: Option<bool>)

  /** What both constructors check before reading the bounds. */
  function CheckBounds(minDocCount: Option<int>, hardBounds: Option<BoundArg>, extendedBounds: Option<BoundArg>)
    : (r: Result<(Option<Bound>, Option<Bound>)>)
    ensures minDocCount.Some? && extendedBounds.Some? ==> r == Err(ValueError)
    ensures TruthyBound(extendedBounds) && !TruthyBound(hardBounds) ==> r == Err(ValueError)
    ensures r.Ok? ==> r.value.0.Some? == hardBounds.Some? && r.value.1.Some? == extendedBounds.Some?
    ensures r.Ok? ==> (r.value.1.Some? ==> r.value.0.Some?)
    ensures r.Ok? ==> ResolveBound(hardBounds) == Ok(r.value.0) && ResolveBound(extendedBounds) == Ok(r.value.1)
    ensures r.Err? ==> r.error in {ValueError, AssertionError}
  {
    if minDocCount.Some? && extendedBounds.Some? then Err(ValueError)
    else if TruthyBound(extendedBounds) && !TruthyBound(hardBounds) then Err(ValueError)
    else
      var hb :- ResolveBound(hardBounds);
      var eb :- ResolveBound(extendedBounds);
      Ok((hb, eb))
  }

  /** `Histogram(...)` */
  function NewHistogram(field: string, interval: string, offset: Option<string>, minDocCount: Option<int>,
                        hardBounds: Option<BoundArg>, extendedBounds: Option<BoundArg>, keyed: Option<bool>,
                        isNormalizedToNs: Option<bool>): (r: Result<Histogram>)
    ensures r.Ok? <==> CheckBounds(minDocCount, hardBounds, extendedBounds).Ok?
    ensures r.Ok? ==> !r.value.date && r.value.interval == Some(interval)
    ensures r.Ok? ==> (r.value.extendedBounds.Some? ==> r.value.hardBounds.Some?)
    ensures r.Ok? ==>
      && ResolveBound(hardBounds) == Ok(r.value.hardBounds)
      && ResolveBound(extendedBounds) == Ok(r.value.extendedBounds)
      && r.value == Histogram(false, field, Some(interval), offset, minDocCount,
                              r.value.hardBounds, r.value.extendedBounds, keyed, isNormalizedToNs)
  {
    var (hb, eb) :- CheckBounds(minDocCount, hardBounds, extendedBounds);
    Ok(Histogram(false, field, Some(interval), offset, minDocCount, hb, eb, keyed, isNormalizedToNs))
  }

  /** `DateHistogram(...)` */
  function NewDateHistogram(field: string, fixedInterval: Option<string>, offset: Option<string>,
                            minDocCount: Option<int>, hardBounds: Option<BoundArg>,
                            extendedBounds: Option<BoundArg>, keyed: Option<bool>): (r: Result<Histogram>)
    ensures r.Ok? <==> CheckBounds(minDocCount, hardBounds, extendedBounds).Ok?
    ensures r.Ok? ==> r.value.date && r.value.interval == fixedInterval && r.value.isNormalizedToNs.None?
    ensures r.Ok? ==> (r.value.extendedBounds.Some? ==> r.value.hardBounds.Some?)
    ensures r.Ok? ==>
      && ResolveBound(hardBounds) == Ok(r.value.hardBounds)
      && ResolveBound(extendedBounds) == Ok(r.value.extendedBounds)
      && r.value == Histogram(true, field, fixedInterval, offset, minDocCount,
                              r.value.hardBounds, r.value.extendedBounds, keyed, None)
  {
    var (hb, eb) :- CheckBounds(minDocCount, hardBounds, extendedBounds);
    Ok(Histogram(true, field, fixedInterval, offset, minDocCount, hb, eb, keyed, None))
  }

  function HistogramName(h: Histogram): string
  {
    if h.date then "date_histogram" else "histogram"
  }

  function OptionalStr(s: Option<string>): Option<Json>
  {
    if s.Some? then Some(JStr(s.value)) else None
  }

  function OptionalBool(b: Option<bool>): Option<Json>
  {
    if b.Some? then Some(JBool(b.value)) else None
  }

  /** The members written first: the field and the interval (`null` for a missing fixed interval). */
  function HistogramHead(h: Histogram): Members
  {
    [("field", JStr(h.field)),
     (if h.date then "fixed_interval" else "interval", if h.interval.Some? then JStr(h.interval.value) else JNull)]
  }

  function HistogramEarly(h: Histogram): seq<(string, Option<Json>)>
  {
    [("offset", OptionalStr(h.offset)),
     ("min_doc_count", if h.minDocCount.Some? then Some(JInt(h.minDocCount.value)) else None),
     ("hard_bounds", if h.hardBounds.Some? then Some(JObject(BoundJson(h.hardBounds.value))) else None)]
  }

  function HistogramLate(h: Histogram): seq<(string, Option<Json>)>
  {
    [("keyed", OptionalBool(h.keyed)),
     ("is_normalized_to_ns", OptionalBool(h.isNormalizedToNs))]
  }

  /** `d["hard_bounds"]["extended_bounds"] = e`: a write into the nested bounds object. */
  function NestExtended(o: Members, e: Members): (r: Result<Members>)
    ensures r.Err? <==> Get(o, "hard_bounds").None? || !Get(o, "hard_bounds").value.JObject?
    ensures r.Ok? ==>
      Get(r.value, "hard_bounds") == Some(JObject(Put(Get(o, "hard_bounds").value.members, "extended_bounds", JObject(e))))
  {
    match Get(o, "hard_bounds")
    case None => Err(KeyError)
    case Some(JObject(m)) => Ok(Put(o, "hard_bounds", JObject(Put(m, "extended_bounds", JObject(e)))))
    case Some(_) => Err(TypeError)
  }

  /** The histogram object, filled key by key as `build_json` does. */
  function HistogramObject(h: Histogram): Result<Members>
  {
    var early := AssignAll(HistogramHead(h), HistogramEarly(h));
    var nested :- if h.extendedBounds.Some? then NestExtended(early, BoundJson(h.extendedBounds.value)) else Ok(early);
    Ok(AssignAll(nested, HistogramLate(h)))
  }

  /** `build_json(as_dict=True)` of either histogram. */
  function HistogramJson(h: Histogram): Result<Members>
  {
    var o :- HistogramObject(h);
    Ok([(HistogramName(h), JObject(o))])
  }

  lemma HistogramNamesDistinct(h: Histogram)
    ensures DistinctNames(HistogramEarly(h)) && DistinctNames(HistogramLate(h))
    ensures forall j :: 0 <= j < 3 ==> HistogramEarly(h)[j].0 !in Keys(HistogramHead(h))
  {
    assert Keys(HistogramHead(h)) == ["field", if h.date then "fixed_interval" else "interval"];
  }

  /** The bounds as they appear in the JSON: extended bounds nested inside the hard bounds object. */
  function NestedBounds(h: Histogram): Option<Json>
  {
    if h.hardBounds.None? then None
    else if h.extendedBounds.None? then Some(JObject(BoundJson(h.hardBounds.value)))
    else Some(JObject(BoundJson(h.hardBounds.value) + [("extended_bounds", JObject(BoundJson(h.extendedBounds.value)))]))
  }

  /** Before the nested write, `hard_bounds` holds the hard bounds alone, when given. */
  lemma HistogramEarlyBounds(h: Histogram)
    ensures Get(AssignAll(HistogramHead(h), HistogramEarly(h)), "hard_bounds")
         == if h.hardBounds.Some? then Some(JObject(BoundJson(h.hardBounds.value))) else None
  {
    HistogramNamesDistinct(h);
    AssignAllAt(HistogramHead(h), HistogramEarly(h), 2);
  }

  /** Writing the extended bounds into the hard bounds object appends them there. */
  lemma NestedBoundsAppend(hb: Bound, eb: Bound)
    ensures Put(BoundJson(hb), "extended_bounds", JObject(BoundJson(eb)))
         == BoundJson(hb) + [("extended_bounds", JObject(BoundJson(eb)))]
  {
    assert Keys(BoundJson(hb)) == ["min", "max"];
    PutNew(BoundJson(hb), "extended_bounds", JObject(BoundJson(eb)));
  }

  /** Every histogram a constructor builds has JSON: the nested write always finds `hard_bounds`. */
  lemma HistogramJsonDefined(h: Histogram)
    requires h.extendedBounds.Some? ==> h.hardBounds.Some?
    ensures HistogramObject(h).Ok?
    ensures Get(HistogramObject(h).value, "hard_bounds") == NestedBounds(h)
  {
    var early := AssignAll(HistogramHead(h), HistogramEarly(h));
    HistogramEarlyBounds(h);
    if h.extendedBounds.Some? {
      NestedBoundsAppend(h.hardBounds.value, h.extendedBounds.value);
    }
    var nested := if h.extendedBounds.Some? then NestExtended(early, BoundJson(h.extendedBounds.value)).value else early;
    assert Get(nested, "hard_bounds") == NestedBounds(h);
    HistogramNamesDistinct(h);
    AssignAllKeeps(nested, HistogramLate(h), "hard_bounds");
  }

  /** The flags and optional settings appear exactly when they are not None. */
  lemma HistogramFlags(h: Histogram)
    requires HistogramObject(h).Ok?
    ensures Get(HistogramObject(h).value, "keyed") == OptionalBool(h.keyed)
    ensures Get(HistogramObject(h).value, "is_normalized_to_ns") == OptionalBool(h.isNormalizedToNs)
  {
    var early := AssignAll(HistogramHead(h), HistogramEarly(h));
    var nested := if h.extendedBounds.Some? then NestExtended(early, BoundJson(h.extendedBounds.value)).value else early;
    HistogramNamesDistinct(h);
    forall j | 0 <= j < 2 ensures HistogramLate(h)[j].0 !in Keys(nested) {
      NestedKeys(h, HistogramLate(h)[j].0);
    }
    AssignAllAt(nested, HistogramLate(h), 0);
    AssignAllAt(nested, HistogramLate(h), 1);
  }

  /** Before the flags are written, the object has none of their keys. */
  lemma NestedKeys(h: Histogram, k: string)
    requires k == "keyed" || k == "is_normalized_to_ns"
    requires HistogramObject(h).Ok?
    ensures var early := AssignAll(HistogramHead(h), HistogramEarly(h));
      var nested := if h.extendedBounds.Some? then NestExtended(early, BoundJson(h.extendedBounds.value)).value else early;
      k !in Keys(nested)
  {
    var early := AssignAll(HistogramHead(h), HistogramEarly(h));
    HistogramNamesDistinct(h);
    AssignAllKeeps(HistogramHead(h), HistogramEarly(h), k);
    assert Keys(HistogramHead(h)) == ["field", if h.date then "fixed_interval" else "interval"];
    if h.extendedBounds.Some? {
      var m := Get(early, "hard_bounds").value.members;
      PutHas(early, "hard_bounds", JObject(Put(m, "extended_bounds", JObject(BoundJson(h.extendedBounds.value)))), k);
    }
  }

  // ---------------------------------------------------------------- Range

  /** `RangeAggegationRange`, with `from`/`to` already converted to JSON values. */
  datatype RangeBucket = RangeBucket(from: Json, to: Json, key: Option<string>)

  function RangeBucketJson(r: RangeBucket): Members
  {
    PutIf([("from", r.from), ("to", r.to)], "key", OptionalStr(r.key))
  }

  datatype RangeAgg = RangeAgg(field: string, ranges: seq<RangeBucket>, keyed: Option<bool>)

  /** `Range.build_json(as_dict=True)`: the buckets in order, then `keyed` when not None. */
  function RangeJson(a: RangeAgg): (r: Members)
    ensures |r| == 1 && r[0].0 == "range" && r[0].1.JObject?
    ensures var inner := r[0].1.members;
      && |inner| == (if a.keyed.Some? then 3 else 2)
      && inner[0] == ("field", JStr(a.field))
      && inner[1].0 == "ranges"
      && inner[1].1 == JArray(seq(|a.ranges|, i requires 0 <= i < |a.ranges| => JObject(RangeBucketJson(a.ranges[i]))))
      && (a.keyed.Some? ==> inner[2] == ("keyed", JBool(a.keyed.value)))
  {
    var inner := [("field", JStr(a.field)),
                  ("ranges", JArray(seq(|a.ranges|, i requires 0 <= i < |a.ranges| => JObject(RangeBucketJson(a.ranges[i])))))];
    assert Keys(inner) == ["field", "ranges"];
    var inner' := PutIf(inner, "keyed", OptionalBool(a.keyed));
    if a.keyed.Some? then
      PutNew(inner, "keyed", JBool(a.keyed.value));
      [("range", JObject(inner'))]
    else [("range", JObject(inner'))]
  }

  // -------------------------------------------------------------- metrics

  /** The single-value metrics that share one shape. */
  datatype MetricKind = Avg | Cardinality | MinMetric | MaxMetric | Stats | Sum

  function MetricName(k: MetricKind): string
  {
    match k
    case Avg => "avg"
    case Cardinality => "cardinality"
    case MinMetric => "min"
    case MaxMetric => "max"
    case Stats => "stats"
    case Sum => "sum"
  }

  datatype Metric = Metric(kind: MetricKind, field: string, missing: Option<Json>)

  /** `build_json(as_dict=True)` of a metric: `{name: {"field": f}}`, plus `missing` when given. */
  function MetricJson(m: Metric): (r: Members)
    ensures r == [(MetricName(m.kind), JObject([("field", JStr(m.field))]
                 + (if m.missing.Some? then [("missing", m.missing.value)] else [])))]
  {
    var inner := [("field", JStr(m.field))];
    if m.missing.Some? then
      PutNew(inner, "missing", m.missing.value);
      [(MetricName(m.kind), JObject(Put(inner, "missing", m.missing.value)))]
    else
      assert inner + [] == inner;
      [(MetricName(m.kind), JObject(inner))]
  }

  // ----------------------------------------------------------- Percentile

  /** What `percents` may be: a list or tuple, or something else (rejected). */
  datatype PercentsArg = PercentList(items: seq<Json>) | PercentOther

  /** `isinstance(x, (int, float))`; a bool is an int in Python. */
  predicate IsNumber(j: Json)
  {
    j.JInt? || j.JFloat? || j.JBool?
  }

  datatype Percentile = Percentile(field: string, percents: Option<seq<Json>>, keyed: Option<bool>, missing: Option<Json>)

  /** `Percentile(...)`: `percents`, when given, must be a list of numbers. */
  function NewPercentile(field: string, percents: Option<PercentsArg>, keyed: Option<bool>, missing: Option<Json>)
    : (r: Result<Percentile>)
    ensures r.Ok? <==> percents.None? || (percents.value.PercentList? && forall i :: 0 <= i < |percents.value.items| ==> IsNumber(percents.value.items[i]))
    ensures r.Err? ==> r.error == ValueError
    ensures r.Ok? ==> r.value.percents == (if percents.Some? then Some(percents.value.items) else None)
  {
    match percents
    case None => Ok(Percentile(field, None, keyed, missing))
    case Some(PercentOther) => Err(ValueError)
    case Some(PercentList(items)) =>
      if forall i :: 0 <= i < |items| ==> IsNumber(items[i]) then Ok(Percentile(field, Some(items), keyed, missing))
      else Err(ValueError)
  }

  function PercentileEntries(p: Percentile): seq<(string, Option<Json>)>
  {
    [("percents", if p.percents.Some? then Some(JArray(p.percents.value)) else None),
     ("keyed", OptionalBool(p.keyed)),
     ("missing", p.missing)]
  }

  /** `Percentile.build_json(as_dict=True)` */
  function PercentileJson(p: Percentile): Members
  {
    [("percentiles", JObject(AssignAll([("field", JStr(p.field))], PercentileEntries(p))))]
  }

  /** Each optional percentile setting appears exactly when it is not None. */
  lemma PercentileLayout(p: Percentile)
    ensures var inner := AssignAll([("field", JStr(p.field))], PercentileEntries(p));
      && Get(inner, "field") == Some(JStr(p.field))
      && Get(inner, "percents") == (if p.percents.Some? then Some(JArray(p.percents.value)) else None)
      && Get(inner, "keyed") == OptionalBool(p.keyed)
      && Get(inner, "missing") == p.missing
  {
    var ps := PercentileEntries(p);
    var fixed := [("field", JStr(p.field))];
    assert Keys(fixed) == ["field"];
    AssignAllKeeps(fixed, ps, "field");
    AssignAllAt(fixed, ps, 0);
    AssignAllAt(fixed, ps, 1);
    AssignAllAt(fixed, ps, 2);
  }

  // --------------------------------------------------------------- TopHit

  /** An item of `TopHit`'s `sort` list. */
  datatype SortArg = SortObject(s: TopHitSort) | SortDict(d: Members) | SortOther

  /** What `sort` may be: a list or tuple, or something else (rejected). */
  datatype SortParam = SortList(items: seq<SortArg>) | SortNotList

  /** The sorts one dict yields: one per entry, in order. */
  function EntrySorts(d: Members): (r: Result<seq<TopHitSort>>)
    ensures r.Err? ==> r.error == ValueError
    ensures r.Ok? ==> |r.value| == |d|
  {
    if |d| == 0 then Ok([])
    else
      var init :- EntrySorts(d[..|d| - 1]);
      var s :- NewTopHitSort(d[|d| - 1].0, d[|d| - 1].1);
      Ok(init + [s])
  }

  /** `TopHitSort.from_array_json`, as a value: every item must be a dict. */
  function SortsFromArray(items: seq<SortArg>): (r: Result<seq<TopHitSort>>)
    ensures r.Err? ==> r.error == ValueError
  {
    if |items| == 0 then Ok([])
    else
      var init :- SortsFromArray(items[..|items| - 1]);
      var last := items[|items| - 1];
      if !last.SortDict? then Err(ValueError)
      else
        var es :- EntrySorts(last.d);
        Ok(init + es)
  }

  /** `TopHitSort.from_array_json`: the nested loop over the items and their entries. */
  method FromArrayJson(items: seq<SortArg>) returns (r: Result<seq<TopHitSort>>)
    ensures r == SortsFromArray(items)
  {
    var objs: seq<TopHitSort> := [];
    var i := 0;
    while i < |items|
      invariant 0 <= i <= |items|
      invariant SortsFromArray(items[..i]) == Ok(objs)
    {
      assert items[..i + 1][..i] == items[..i];
      if !items[i].SortDict? {
        SortsFromArrayFails(items, i + 1);
        return Err(ValueError);
      }
      var d := items[i].d;
      var j := 0;
      ghost var before := objs;
      while j < |d|
        invariant 0 <= j <= |d|
        invariant EntrySorts(d[..j]).Ok? && objs == before + EntrySorts(d[..j]).value
      {
        assert d[..j + 1][..j] == d[..j];
        var s := NewTopHitSort(d[j].0, d[j].1);
        if s.Err? {
          EntrySortsFails(d, j + 1);
          SortsFromArrayFails(items, i + 1);
          return Err(ValueError);
        }
        Assoc(before, EntrySorts(d[..j]).value, [s.value]);
        objs := objs + [s.value];
        j := j + 1;
      }
      assert d[..j] == d;
      i := i + 1;
    }
    assert items[..i] == items;
    return Ok(objs);
  }

  /** A failing prefix of a dict's entries makes the whole dict fail. */
  lemma {:induction false} EntrySortsFails(d: Members, n: nat)
    requires n <= |d|
    requires EntrySorts(d[..n]).Err?
    ensures EntrySorts(d).Err?
  {
    if n < |d| {
      var init := d[..|d| - 1];
      assert init[..n] == d[..n];
      EntrySortsFails(init, n);
    } else {
      assert d[..n] == d;
    }
  }

  /** A failing prefix of the items makes the whole list fail. */
  lemma {:induction false} SortsFromArrayFails(items: seq<SortArg>, n: nat)
    requires 0 < n <= |items|
    requires SortsFromArray(items[..n - 1]).Ok?
    requires !items[n - 1].SortDict? || EntrySorts(items[n - 1].d).Err?
    ensures SortsFromArray(items).Err?
  {
    assert items[..n][..n - 1] == items[..n - 1];
    assert SortsFromArray(items[..n]).Err?;
    PrefixFails(items, n);
  }

  lemma {:induction false} PrefixFails(items: seq<SortArg>, n: nat)
    requires n <= |items|
    requires SortsFromArray(items[..n]).Err?
    ensures SortsFromArray(items).Err?
  {
    if n < |items| {
      var init := items[..|items| - 1];
      assert init[..n] == items[..n];
      PrefixFails(init, n);
    } else {
      assert items[..n] == items;
    }
  }

  /** The single-entry objects a list of dicts splits into, in order. */
  function Singletons(items: seq<SortArg>): seq<Json>
  {
    if |items| == 0 then []
    else
      var last := items[|items| - 1];
      Singletons(items[..|items| - 1])
        + (if last.SortDict? then seq(|last.d|, i requires 0 <= i < |last.d| => JObject([last.d[i]])) else [])
  }

  function SortsJson(sorts: seq<TopHitSort>): (r: seq<Json>)
    ensures |r| == |sorts|
  {
    seq(|sorts|, i requires 0 <= i < |sorts| => SortJson(sorts[i]))
  }

  /** A dict's sorts render back to its entries, each as a one-entry object. */
  lemma {:induction false} EntrySortsJson(d: Members)
    requires EntrySorts(d).Ok?
    ensures SortsJson(EntrySorts(d).value) == seq(|d|, i requires 0 <= i < |d| => JObject([d[i]]))
  {
    if |d| > 0 {
      var init := d[..|d| - 1];
      EntrySortsJson(init);
      var s := NewTopHitSort(d[|d| - 1].0, d[|d| - 1].1).value;
      var prior := EntrySorts(init).value;
      assert EntrySorts(d).value == prior + [s];
      assert SortJson(s) == JObject([d[|d| - 1]]);
      assert SortsJson(prior + [s]) == SortsJson(prior) + [SortJson(s)];
      assert seq(|d|, i requires 0 <= i < |d| => JObject([d[i]]))
          == seq(|init|, i requires 0 <= i < |init| => JObject([init[i]])) + [JObject([d[|d| - 1]])];
    }
  }

  /**
   * Reading a list of dicts and rendering it again splits every dict into its
   * entries, one `{field: order}` object each, keeping the order.
   */
  lemma {:induction false} SortsRoundTrip(items: seq<SortArg>)
    requires SortsFromArray(items).Ok?
    ensures SortsJson(SortsFromArray(items).value) == Singletons(items)
  {
    if |items| > 0 {
      var init := items[..|items| - 1];
      var last := items[|items| - 1];
      SortsRoundTrip(init);
      EntrySortsJson(last.d);
      var a := SortsFromArray(init).value;
      var b := EntrySorts(last.d).value;
      assert SortsFromArray(items).value == a + b;
      assert SortsJson(a + b) == SortsJson(a) + SortsJson(b);
    }
  }

  datatype TopHit = TopHit(sort: seq<TopHitSort>, size: Json, from: Option<Json>, docvalueFields: Option<Json>)

  /** `isinstance(x, int)`; a bool is an int in Python. */
  predicate IsInt(j: Json)
  {
    j.JInt? || j.JBool?
  }

  /**
   * `TopHit(...)`: `sort` must be a list; its first item decides whether it is read
   * as dicts; `from_` must be an int; and the sort objects must render, which the
   * constructor's own `build_json` call requires.
   */
  function NewTopHit(sort: SortParam, size: Json, from: Option<Json>, docvalueFields: Option<Json>)
    : (r: Result<TopHit>)
    ensures sort.SortNotList? ==> r == Err(ValueError)
    ensures sort == SortList([]) ==> r == Err(IndexError)
    ensures sort.SortList? && |sort.items| > 0 && sort.items[0].SortDict? ==>
      (r.Ok? <==> SortsFromArray(sort.items).Ok? && (from.Some? ==> IsInt(from.value)))
    ensures sort.SortList? && |sort.items| > 0 && !sort.items[0].SortDict? ==>
      (r.Ok? <==> (forall i :: 0 <= i < |sort.items| ==> sort.items[i].SortObject?) && (from.Some? ==> IsInt(from.value)))
    ensures r.Ok? ==> r.value.size == size && r.value.from == from && r.value.docvalueFields == docvalueFields
    ensures r.Ok? && sort.items[0].SortDict? ==> r.value.sort == SortsFromArray(sort.items).value
    ensures r.Ok? && !sort.items[0].SortDict? ==>
      |r.value.sort| == |sort.items| && forall i :: 0 <= i < |sort.items| ==> r.value.sort[i] == sort.items[i].s
  {
    match sort
    case SortNotList => Err(ValueError)
    case SortList(items) =>
      if |items| == 0 then Err(IndexError)
      else if items[0].SortDict? then
        var sorts :- SortsFromArray(items);
        if from.Some? && !IsInt(from.value) then Err(ValueError)
        else Ok(TopHit(sorts, size, from, docvalueFields))
      else if from.Some? && !IsInt(from.value) then Err(ValueError)
      else if forall i :: 0 <= i < |items| ==> items[i].SortObject? then
        Ok(TopHit(seq(|items|, i requires 0 <= i < |items| && items[i].SortObject? => items[i].s), size, from, docvalueFields))
      else Err(AttributeError)
  }

  /** `TopHit.build_json(as_dict=True)` */
  function TopHitJson(t: TopHit): Members
  {
    [("top_hits", JObject(AssignAll([("sort", JArray(SortsJson(t.sort))), ("size", t.size)],
                                    [("from", t.from), ("docvalue_fields", t.docvalueFields)])))]
  }

  /** `from` and `docvalue_fields` appear exactly when given; `sort` and `size` always. */
  lemma TopHitLayout(t: TopHit)
    ensures var inner := AssignAll([("sort", JArray(SortsJson(t.sort))), ("size", t.size)],
                                   [("from", t.from), ("docvalue_fields", t.docvalueFields)]);
      && Get(inner, "sort") == Some(JArray(SortsJson(t.sort)))
      && Get(inner, "size") == Some(t.size)
      && Get(inner, "from") == t.from
      && Get(inner, "docvalue_fields") == t.docvalueFields
  {
    var fixed := [("sort", JArray(SortsJson(t.sort))), ("size", t.size)];
    var ps := [("from", t.from), ("docvalue_fields", t.docvalueFields)];
    assert Keys(fixed) == ["sort", "size"];
    AssignAllAt(fixed, ps, 0);
    AssignAllAt(fixed, ps, 1);
    AssignAllKeeps(fixed, ps, "sort");
    AssignAllKeeps(fixed, ps, "size");
    assert fixed == [("sort", JArray(SortsJson(t.sort)))] + [("size", t.size)];
    GetAppend([("sort", JArray(SortsJson(t.sort)))], [("size", t.size)], "size");
  }

  // ------------------------------------------------------------ build_json

  /** Every aggregate the core defines. */
  datatype Aggregate =
    | CountAgg(countField: Scalar)
    | TermAgg(term: Term)
    | HistogramAgg(histogram: Histogram)
    | RangeAggregate(range: RangeAgg)
    | MetricAgg(metric: Metric)
    | PercentileAgg(percentile: Percentile)
    | TopHitAgg(topHit: TopHit)

  /** `build_json(as_dict=True)`; only a histogram built outside its constructor can fail. */
  function AggregateJson(a: Aggregate): (r: Result<Members>)
    ensures !a.HistogramAgg? ==> r.Ok?
  {
    match a
    case CountAgg(f) => Ok(CountJson(f))
    case TermAgg(t) => Ok(TermJson(t))
    case HistogramAgg(h) => HistogramJson(h)
    case RangeAggregate(r) => Ok(RangeJson(r))
    case MetricAgg(m) => Ok(MetricJson(m))
    case PercentileAgg(p) => Ok(PercentileJson(p))
    case TopHitAgg(t) => Ok(TopHitJson(t))
  }

  /** What `build_json` returns: the dict itself, or its JSON text. */
  datatype Built = AsDict(dict: Members) | AsText(text: string)

  /** `build_json(as_dict)`: the same object either way, serialised unless asked for the dict. */
  function BuildJson(a: Aggregate, asDict: bool): (r: Result<Built>)
    ensures r.Ok? <==> AggregateJson(a).Ok?
    ensures r.Ok? && asDict ==> r.value == AsDict(AggregateJson(a).value)
    ensures r.Ok? && !asDict ==> r.value == AsText(Serialize(JObject(AggregateJson(a).value)))
  {
    var d :- AggregateJson(a);
    if asDict then Ok(AsDict(d)) else Ok(AsText(Serialize(JObject(d))))
  }
}
