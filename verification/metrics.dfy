/**
 The metrics registry (app/metrics.py, lines 10-86, 135-146 and 189-212).

 The registry's dictionaries are compared with the plain list of everything that
 was ever recorded: `log`. Sums are reals.
 */
module Metrics {
  import opened Collections

  type Labels = seq<(string, string)>

  datatype Series = Series(metric: string, labels: Labels)

  datatype Event =
    | Increment(series: Series, value: real)
    | Gauge(series: Series, value: real)
    | InFlight(change: int)
    | Duration(series: Series, seconds: real)
    | Http(route: string, verb: string, status: int, seconds: real)

  const HTTP_TOTAL := "rag_http_requests_total"
  const HTTP_DURATION := "rag_http_request_duration_seconds"
  const IN_FLIGHT := Series("rag_http_requests_in_flight", [])
  const BUCKETS: seq<real> := [0.005, 0.01, 0.025, 0.05, 0.1, 0.25, 0.5, 1.0, 2.5, 5.0, 10.0, 30.0, 60.0, 120.0]

  /** Unknown verbs share one label value. */
  function Verb(verb: string): string {
    if verb == "GET" || verb == "HEAD" || verb == "POST" || verb == "PUT" || verb == "DELETE"
       || verb == "CONNECT" || verb == "OPTIONS" || verb == "TRACE" || verb == "PATCH" then verb
    else "OTHER"
  }

  datatype Class = Success | Redirect | ClientError | ServerError | Other

  function ClassOf(status: int): Class {
    match status / 100
    case 2 => Success case 3 => Redirect case 4 => ClientError case 5 => ServerError case _ => Other
  }

  function ClassLabel(c: Class): string {
    match c
    case Success => "2xx" case Redirect => "3xx" case ClientError => "4xx" case ServerError => "5xx"
    case Other => "other"
  }

  /** Label tuples are sorted by name. */
  function HttpSeries(route: string, verb: string): Series {
    Series(HTTP_DURATION, [("method", verb), ("route", route)])
  }

  function HttpCounter(route: string, verb: string, c: Class): Series {
    Series(HTTP_TOTAL, [("method", verb), ("route", route), ("status_class", ClassLabel(c))])
  }

  // ---------- what the log says ----------

  function Init(log: seq<Event>): seq<Event> requires log != [] { log[..|log| - 1] }

  function Latest(log: seq<Event>): Event requires log != [] { log[|log| - 1] }

  predicate Hits(e: Event, s: Series) {
    (e.Duration? && e.series == s) || (e.Http? && HttpSeries(e.route, Verb(e.verb)) == s)
  }

  function Observations(log: seq<Event>, s: Series): nat {
    if log == [] then 0 else Observations(Init(log), s) + if Hits(Latest(log), s) then 1 else 0
  }

  /** Observations no longer than `bound`. */
  function AtMost(log: seq<Event>, s: Series, bound: real): nat {
    if log == [] then 0 else
      AtMost(Init(log), s, bound) + if Hits(Latest(log), s) && Latest(log).seconds <= bound then 1 else 0
  }

  function TotalSeconds(log: seq<Event>, s: Series): real {
    if log == [] then 0.0 else
      TotalSeconds(Init(log), s) + if Hits(Latest(log), s) then Latest(log).seconds else 0.0
  }

  function Gain(e: Event, s: Series): real {
    match e
    case Increment(t, v) => if t == s then v else 0.0
    case Http(route, verb, status, _) => if HttpCounter(route, Verb(verb), ClassOf(status)) == s then 1.0 else 0.0
    case _ => 0.0
  }

  function Counter(log: seq<Event>, s: Series): real {
    if log == [] then 0.0 else Counter(Init(log), s) + Gain(Latest(log), s)
  }

  function GaugeValue(log: seq<Event>, s: Series): real {
    if log == [] then 0.0 else
      match Latest(log)
      case Gauge(t, v) => if t == s then v else GaugeValue(Init(log), s)
      case InFlight(change) => GaugeValue(Init(log), s) + if s == IN_FLIGHT then change as real else 0.0
      case _ => GaugeValue(Init(log), s)
  }

  lemma Append(log: seq<Event>, e: Event)
    ensures Init(log + [e]) == log && Latest(log + [e]) == e
  {}

  // ---------- the registry ----------

  function Get<K>(m: map<K, real>, k: K): real { if k in m then m[k] else 0.0 }

  function GetInt<K>(m: map<K, int>, k: K): int { if k in m then m[k] else 0 }

  lemma BucketIsNew(i: nat)
    requires i < |BUCKETS|
    ensures BUCKETS[i] !in BUCKETS[..i]
    ensures forall b :: b in BUCKETS[..i + 1] <==> b in BUCKETS[..i] || b == BUCKETS[i]
  {
    assert forall j, k :: 0 <= j < k < |BUCKETS| ==> BUCKETS[j] < BUCKETS[k];
    assert BUCKETS[..i + 1] == BUCKETS[..i] + [BUCKETS[i]];
  }

  /** What an observation of `s` adds to bucket `b` of `t`, given the bounds. */
  function Added(s: Series, seconds: real, bounds: seq<real>, t: Series, b: real): int {
    if t == s && b in bounds && seconds <= b then 1 else 0
  }

  /** One scraped histogram: the bucket counts in order, the count and the sum. */
  datatype Row = Row(cumulative: seq<int>, count: int, sum: real)

  class Registry {
    var counters: map<Series, real>
    var gauges: map<Series, real>
    var counts: map<(Series, real), int>
    var sums: map<Series, real>
    var observations: map<Series, int>
    ghost var log: seq<Event>

    ghost predicate HistogramsMatch() reads this {
      && (forall s :: GetInt(observations, s) == Observations(log, s))
      && (forall s :: s in observations ==> observations[s] > 0)
      && (forall s :: Get(sums, s) == TotalSeconds(log, s))
      && (forall s, b :: b in BUCKETS ==> GetInt(counts, (s, b)) == AtMost(log, s, b))
    }

    ghost predicate Valid() reads this {
      && HistogramsMatch()
      && (forall s :: Get(counters, s) == Counter(log, s))
      && (forall s :: Get(gauges, s) == GaugeValue(log, s))
    }

    constructor ()
      ensures Valid() && log == []
    {
      counters, gauges, counts, sums, observations := map[], map[IN_FLIGHT := 0.0], map[], map[], map[];
      log := [];
    }

    method IncCounter(name: string, labels: Labels, value: real)
      requires Valid()
      modifies this
      ensures Valid() && log == old(log) + [Increment(Series(name, labels), value)]
    {
      var s := Series(name, labels);
      Append(log, Increment(s, value));
      counters := counters[s := Get(counters, s) + value];
      log := log + [Increment(s, value)];
    }

    method SetGauge(name: string, value: real, labels: Labels)
      requires Valid()
      modifies this
      ensures Valid() && log == old(log) + [Gauge(Series(name, labels), value)]
    {
      var s := Series(name, labels);
      Append(log, Gauge(s, value));
      gauges := gauges[s := value];
      log := log + [Gauge(s, value)];
    }

    method HttpInFlight(change: int)
      requires Valid()
      modifies this
      ensures Valid() && log == old(log) + [InFlight(change)]
    {
      Append(log, InFlight(change));
      gauges := gauges[IN_FLIGHT := Get(gauges, IN_FLIGHT) + change as real];
      log := log + [InFlight(change)];
    }

    /** `for bucket in _DURATION_BUCKETS: if seconds <= bucket: ... += 1` */
    method CountBuckets(s: Series, seconds: real)
      modifies this`counts
      ensures forall t, b :: GetInt(counts, (t, b)) == GetInt(old(counts), (t, b)) + Added(s, seconds, BUCKETS, t, b)
    {
      var i := 0;
      while i < |BUCKETS|
        invariant i <= |BUCKETS|
        invariant forall t, b ::
          GetInt(counts, (t, b)) == GetInt(old(counts), (t, b)) + Added(s, seconds, BUCKETS[..i], t, b)
      {
        var b := BUCKETS[i];
        BucketIsNew(i);
        if seconds <= b { counts := counts[(s, b) := GetInt(counts, (s, b)) + 1]; }
        i := i + 1;
      }
      assert BUCKETS[..i] == BUCKETS;
    }

    /** The caller holds the lock and records the event. */
    method ObserveUnderLock(s: Series, seconds: real, ghost e: Event)
      requires HistogramsMatch()
      requires forall t :: Hits(e, t) <==> t == s
      requires (e.Duration? || e.Http?) && e.seconds == seconds
      modifies this`sums, this`observations, this`counts, this`log
      ensures HistogramsMatch() && log == old(log) + [e]
    {
      Append(log, e);
      sums := sums[s := Get(sums, s) + seconds];
      observations := observations[s := GetInt(observations, s) + 1];
      CountBuckets(s, seconds);
      log := log + [e];
    }

    method ObserveDuration(metric: string, labels: Labels, seconds: real)
      requires Valid()
      modifies this
      ensures Valid() && log == old(log) + [Duration(Series(metric, labels), seconds)]
    {
      Append(log, Duration(Series(metric, labels), seconds));
      ObserveUnderLock(Series(metric, labels), seconds, Duration(Series(metric, labels), seconds));
    }

    method ObserveHttpRequest(route: string, verb: string, status: int, seconds: real)
      requires Valid()
      modifies this
      ensures Valid() && log == old(log) + [Http(route, verb, status, seconds)]
    {
      ghost var e := Http(route, verb, status, seconds);
      Append(log, e);
      var c := HttpCounter(route, Verb(verb), ClassOf(status));
      counters := counters[c := Get(counters, c) + 1.0];
      ObserveUnderLock(HttpSeries(route, Verb(verb)), seconds, e);
    }

    /** Reading a bucket of the default dictionary inserts a zero for it. */
    method ReadBucket(s: Series, bound: real) returns (n: int)
      modifies this`counts
      ensures n == GetInt(old(counts), (s, bound))
      ensures forall k :: GetInt(counts, k) == GetInt(old(counts), k)
    {
      if (s, bound) !in counts { counts := counts[(s, bound) := 0]; }
      n := counts[(s, bound)];
    }

    /** The row of a series says what the log says. */
    ghost predicate Reports(row: Row, s: Series) reads this {
      && row.count == Observations(log, s) && row.sum == TotalSeconds(log, s)
      && |row.cumulative| == |BUCKETS|
      && forall i :: 0 <= i < |BUCKETS| ==> row.cumulative[i] == AtMost(log, s, BUCKETS[i])
    }

    /** One histogram of a scrape: it reports the log and changes no value. */
    method Scrape(s: Series) returns (row: Row)
      requires Valid()
      modifies this`counts
      ensures Valid()
      ensures forall k :: GetInt(counts, k) == GetInt(old(counts), k)
      ensures Reports(row, s)
    {
      var cumulative := [];
      var i := 0;
      while i < |BUCKETS|
        invariant i == |cumulative| <= |BUCKETS|
        invariant forall k :: GetInt(counts, k) == GetInt(old(counts), k)
        invariant forall j :: 0 <= j < i ==> cumulative[j] == AtMost(log, s, BUCKETS[j])
      {
        assert BUCKETS[i] in BUCKETS;
        var n := ReadBucket(s, BUCKETS[i]);
        cumulative := cumulative + [n];
        i := i + 1;
      }
      row := Row(cumulative, GetInt(observations, s), Get(sums, s));
    }

    /** The histograms of a scrape: every observed label set of every family is
        reported as the log has it, no other, and no value changes. */
    method ScrapeAll(families: set<string>) returns (rows: map<Series, Row>)
      requires Valid()
      modifies this`counts
      ensures Valid()
      ensures forall k :: GetInt(counts, k) == GetInt(old(counts), k)
      ensures forall s :: s in rows <==> s.metric in families && Observations(log, s) > 0
      ensures forall s :: s in rows ==> Reports(rows[s], s)
    {
      var left := set s | s in observations && s.metric in families;
      rows := map[];
      while left != {}
        invariant Valid()
        invariant forall k :: GetInt(counts, k) == GetInt(old(counts), k)
        invariant forall s :: s in rows || s in left <==> s in observations && s.metric in families
        invariant forall s :: s in rows ==> Reports(rows[s], s)
        decreases left
      {
        var s :| s in left;
        var row := Scrape(s);
        rows, left := rows[s := row], left - {s};
      }
    }
  }

  // ---------- the same by selecting events ----------

  function SecondsOf(e: Event): real { if e.Duration? || e.Http? then e.seconds else 0.0 }

  function HitsOf(s: Series): Event -> bool { (e: Event) => Hits(e, s) }

  /** The durations that a series observed, in order. */
  function Durations(log: seq<Event>, s: Series): seq<real> {
    Map(SecondsOf, Filter(HitsOf(s), log))
  }

  function Within(bound: real): real -> bool { (d: real) => d <= bound }

  function Sum(xs: seq<real>): real { if xs == [] then 0.0 else xs[0] + Sum(xs[1..]) }

  lemma {:induction false} SumConcat(a: seq<real>, b: seq<real>)
    ensures Sum(a + b) == Sum(a) + Sum(b)
  {
    if a == [] {
      assert a + b == b;
    } else {
      assert (a + b)[1..] == a[1..] + b;
      SumConcat(a[1..], b);
    }
  }

  lemma DurationsNext(log: seq<Event>, s: Series)
    requires log != []
    ensures Durations(log, s)
         == Durations(Init(log), s) + if Hits(Latest(log), s) then [Latest(log).seconds] else []
  {
    var p := HitsOf(s);
    assert log == Init(log) + [Latest(log)];
    FilterConcat(p, Init(log), [Latest(log)]);
    FilterOne(p, Latest(log));
    MapConcat(SecondsOf, Filter(p, Init(log)), Filter(p, [Latest(log)]));
  }

  /** What a histogram reports: how many durations there are, their sum, and how many are
      no longer than a bound. */
  lemma {:induction false} HistogramIs(log: seq<Event>, s: Series, bound: real)
    ensures var ds := Durations(log, s);
      && Observations(log, s) == |ds| && TotalSeconds(log, s) == Sum(ds)
      && AtMost(log, s, bound) == |Filter(Within(bound), ds)|
  {
    if log != [] {
      var front, more := Durations(Init(log), s), if Hits(Latest(log), s) then [Latest(log).seconds] else [];
      HistogramIs(Init(log), s, bound);
      DurationsNext(log, s);
      SumConcat(front, more);
      FilterConcat(Within(bound), front, more);
      if more != [] { FilterOne(Within(bound), more[0]); }
    }
  }

  // ---------- which requests a series counts ----------

  /** A verb of its own has its own series, and all others share "OTHER". */
  lemma VerbIs(verb: string)
    ensures var known := ["GET", "HEAD", "POST", "PUT", "DELETE", "CONNECT", "OPTIONS", "TRACE", "PATCH"];
      && (verb in known ==> Verb(verb) == verb)
      && (verb !in known ==> Verb(verb) == "OTHER")
  {}

  /** A request of this route and verb. */
  predicate IsRequest(e: Event, route: string, verb: string) { e.Http? && e.route == route && Verb(e.verb) == verb }

  function RequestsOf(route: string, verb: string): Event -> bool { (e: Event) => IsRequest(e, route, verb) }

  function RequestsOfClass(route: string, verb: string, c: Class): Event -> bool {
    (e: Event) => IsRequest(e, route, verb) && ClassOf(e.status) == c
  }

  lemma ClassLabelsDiffer(c: Class, d: Class)
    ensures ClassLabel(c) == ClassLabel(d) <==> c == d
  {
    assert ClassLabel(c)[0] != ClassLabel(d)[0] || c == d;
  }

  lemma CounterIdentifiesRequest(r1: string, v1: string, c1: Class, r2: string, v2: string, c2: Class)
    ensures HttpCounter(r1, v1, c1) == HttpCounter(r2, v2, c2) <==> r1 == r2 && v1 == v2 && c1 == c2
    ensures HttpSeries(r1, v1) == HttpSeries(r2, v2) <==> r1 == r2 && v1 == v2
  {
    var a, b := HttpCounter(r1, v1, c1), HttpCounter(r2, v2, c2);
    var x, y := HttpSeries(r1, v1), HttpSeries(r2, v2);
    assert a.labels[0] == ("method", v1) && a.labels[1] == ("route", r1);
    assert b.labels[0] == ("method", v2) && b.labels[1] == ("route", r2);
    assert a.labels[2] == ("status_class", ClassLabel(c1)) && b.labels[2] == ("status_class", ClassLabel(c2));
    assert x.labels[0] == ("method", v1) && x.labels[1] == ("route", r1);
    assert y.labels[0] == ("method", v2) && y.labels[1] == ("route", r2);
    ClassLabelsDiffer(c1, c2);
  }

  lemma LastRequestCounts(e: Event, route: string, verb: string, c: Class)
    requires e.Increment? ==> e.series.metric != HTTP_TOTAL
    requires e.Duration? ==> e.series.metric != HTTP_DURATION
    ensures Hits(e, HttpSeries(route, verb)) <==> IsRequest(e, route, verb)
    ensures Gain(e, HttpCounter(route, verb, c))
         == if IsRequest(e, route, verb) && ClassOf(e.status) == c then 1.0 else 0.0
  {
    if e.Http? { CounterIdentifiesRequest(e.route, Verb(e.verb), ClassOf(e.status), route, verb, c); }
  }

  /** The HTTP families are written by `observe_http_request` only. */
  ghost predicate HttpFamiliesReserved(log: seq<Event>) {
    forall i :: 0 <= i < |log| ==>
      && (log[i].Increment? ==> log[i].series.metric != HTTP_TOTAL)
      && (log[i].Duration? ==> log[i].series.metric != HTTP_DURATION)
  }

  lemma {:induction false} SeriesCountsRequests(log: seq<Event>, route: string, verb: string, c: Class)
    requires HttpFamiliesReserved(log)
    ensures Observations(log, HttpSeries(route, verb)) == |Filter(RequestsOf(route, verb), log)|
    ensures Counter(log, HttpCounter(route, verb, c))
         == |Filter(RequestsOfClass(route, verb, c), log)| as real
  {
    if log != [] {
      var last, front := Latest(log), Init(log);
      var p, q := RequestsOf(route, verb), RequestsOfClass(route, verb, c);
      assert log == front + [last] && last == log[|log| - 1];
      assert forall i :: 0 <= i < |front| ==> front[i] == log[i];
      SeriesCountsRequests(front, route, verb, c);
      FilterConcat(p, front, [last]);
      FilterConcat(q, front, [last]);
      FilterOne(p, last);
      FilterOne(q, last);
      LastRequestCounts(last, route, verb, c);
    }
  }

  function ValueOf(e: Event): real { if e.Increment? then e.value else 0.0 }

  function Additions(s: Series): Event -> bool { (e: Event) => e.Increment? && e.series == s }

  /** A counter of another family is the sum of what was added to it. */
  lemma {:induction false} CounterIsSum(log: seq<Event>, s: Series)
    requires s.metric != HTTP_TOTAL
    ensures Counter(log, s) == Sum(Map(ValueOf, Filter(Additions(s), log)))
  {
    if log != [] {
      var last, front := Latest(log), Init(log);
      var p := Additions(s);
      assert log == front + [last];
      CounterIsSum(front, s);
      FilterConcat(p, front, [last]);
      FilterOne(p, last);
      MapConcat(ValueOf, Filter(p, front), Filter(p, [last]));
      SumConcat(Map(ValueOf, Filter(p, front)), Map(ValueOf, Filter(p, [last])));
    }
  }

  /** A gauge shows what it was last set to. */
  lemma {:induction false} LatestSetIsShown(before: seq<Event>, s: Series, value: real, after: seq<Event>)
    requires s != IN_FLIGHT && forall i :: 0 <= i < |after| && after[i].Gauge? ==> after[i].series != s
    ensures GaugeValue(before + ([Gauge(s, value)] + after), s) == value
  {
    var log := before + ([Gauge(s, value)] + after);
    if after == [] {
      assert log == before + [Gauge(s, value)];
    } else {
      var front := after[..|after| - 1];
      assert Init(log) == before + ([Gauge(s, value)] + front) && Latest(log) == after[|after| - 1];
      LatestSetIsShown(before, s, value, front);
    }
  }

  // ---------- histograms are cumulative ----------

  /** A larger bound never counts less, and no bound counts more than `+Inf`. */
  lemma {:induction false} BucketsAreCumulative(log: seq<Event>, s: Series, b: real, c: real)
    requires b <= c
    ensures AtMost(log, s, b) <= AtMost(log, s, c) <= Observations(log, s)
  {
    if log != [] { BucketsAreCumulative(Init(log), s, b, c); }
  }

  /** Every observation at or below `c` is counted in the bucket of `c`. */
  lemma {:induction false} LargeBucketCountsAll(log: seq<Event>, s: Series, c: real)
    requires forall i :: 0 <= i < |log| && Hits(log[i], s) ==> log[i].seconds <= c
    ensures AtMost(log, s, c) == Observations(log, s)
  {
    if log != [] {
      forall i | 0 <= i < |Init(log)| && Hits(Init(log)[i], s) ensures Init(log)[i].seconds <= c {
        assert Init(log)[i] == log[i];
      }
      LargeBucketCountsAll(Init(log), s, c);
      assert Hits(Latest(log), s) ==> log[|log| - 1].seconds <= c;
    }
  }

  // ---------- counters and histograms agree ----------

  function OverClasses(log: seq<Event>, route: string, verb: string): real {
    Counter(log, HttpCounter(route, verb, Success)) + Counter(log, HttpCounter(route, verb, Redirect))
    + Counter(log, HttpCounter(route, verb, ClientError)) + Counter(log, HttpCounter(route, verb, ServerError))
    + Counter(log, HttpCounter(route, verb, Other))
  }

  /** The class label of a request is its hundreds digit for 200 to 599. */
  lemma StatusClassIff(route: string, verb: string, status: int, digit: int)
    requires 2 <= digit <= 5
    ensures var c := HttpCounter(route, verb, ClassOf(status)).labels[2];
      && c.0 == "status_class"
      && (c.1 == ['0' + digit as char, 'x', 'x'] <==> 100 * digit <= status < 100 * digit + 100)
      && (c.1 == "other" <==> status < 200 || status >= 600)
  {
    var text := ClassLabel(ClassOf(status));
    assert text[0] == '2' || text[0] == '3' || text[0] == '4' || text[0] == '5' || text[0] == 'o';
    assert digit == 2 || digit == 3 || digit == 4 || digit == 5;
  }

  /** One request adds one to exactly one status class of its route and verb. */
  lemma GainOverClasses(e: Event, route: string, verb: string)
    requires e.Increment? ==> e.series.metric != HTTP_TOTAL
    requires e.Duration? ==> e.series.metric != HTTP_DURATION
    ensures Gain(e, HttpCounter(route, verb, Success)) + Gain(e, HttpCounter(route, verb, Redirect))
          + Gain(e, HttpCounter(route, verb, ClientError)) + Gain(e, HttpCounter(route, verb, ServerError))
          + Gain(e, HttpCounter(route, verb, Other))
         == if Hits(e, HttpSeries(route, verb)) then 1.0 else 0.0
  {
    if e.Http? {
      forall c: Class ensures HttpCounter(e.route, Verb(e.verb), ClassOf(e.status)) == HttpCounter(route, verb, c)
                         <==> e.route == route && Verb(e.verb) == verb && ClassOf(e.status) == c {
        CounterIdentifiesRequest(e.route, Verb(e.verb), ClassOf(e.status), route, verb, c);
      }
      CounterIdentifiesRequest(e.route, Verb(e.verb), Success, route, verb, Success);
    }
  }

  /** Summed over the status classes, the request counters of a route and verb
      equal the count of its duration histogram. */
  lemma {:induction false} CountersMatchHistogram(log: seq<Event>, route: string, verb: string)
    requires HttpFamiliesReserved(log)
    ensures OverClasses(log, route, verb) == Observations(log, HttpSeries(route, verb)) as real
  {
    if log != [] {
      var rest := Init(log);
      assert forall i :: 0 <= i < |rest| ==> rest[i] == log[i];
      CountersMatchHistogram(rest, route, verb);
      assert Latest(log) == log[|log| - 1];
      GainOverClasses(Latest(log), route, verb);
    }
  }

  /** No caller-chosen verb becomes a series. */
  lemma VerbsAreBounded(log: seq<Event>, route: string, verb: string)
    requires HttpFamiliesReserved(log) && Observations(log, HttpSeries(route, verb)) > 0
    ensures verb in ["GET", "HEAD", "POST", "PUT", "DELETE", "CONNECT", "OPTIONS", "TRACE", "PATCH", "OTHER"]
    decreases log
  {
    if Hits(Latest(log), HttpSeries(route, verb)) {
      var e := Latest(log);
      assert log[|log| - 1] == e;
      CounterIdentifiesRequest(e.route, Verb(e.verb), Success, route, verb, Success);
    } else {
      assert forall i :: 0 <= i < |Init(log)| ==> Init(log)[i] == log[i];
      VerbsAreBounded(Init(log), route, verb);
    }
  }

  // ---------- the in-flight gauge ----------

  function NetChange(log: seq<Event>): int {
    if log == [] then 0 else NetChange(Init(log)) + if Latest(log).InFlight? then Latest(log).change else 0
  }

  /** Unless someone sets it, the gauge is the net of all changes. */
  lemma {:induction false} GaugeIsNetChange(log: seq<Event>)
    requires forall i :: 0 <= i < |log| && log[i].Gauge? ==> log[i].series != IN_FLIGHT
    ensures GaugeValue(log, IN_FLIGHT) == NetChange(log) as real
  {
    if log != [] {
      var rest := Init(log);
      assert forall i :: 0 <= i < |rest| ==> rest[i] == log[i];
      GaugeIsNetChange(rest);
      assert Latest(log) == log[|log| - 1];
    }
  }
}
