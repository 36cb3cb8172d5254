/**
 HTTPMetricsMiddleware (app/http_metrics.py, lines 15-35): requests interleave at
 every `await`, and other registry calls can come between any two of its own. A
 scrape changes nothing that is reported (Metrics.Registry.Scrape).
 */
module HttpMetrics {
  import opened Collections
  import opened Metrics

  /** A request whose gauge increment is in place. */
  datatype Open = Open(status: int, observed: bool)

  /** `owners` tells which request made a log entry of its own; `seen` holds every
      request that ever entered. */
  datatype State = State(log: seq<Event>, owners: seq<Option<nat>>, open: map<nat, Open>, seen: set<nat>)

  datatype Action =
    | Enter(id: nat)                   // `http_in_flight(1)`
    | ResponseStart(id: nat, status: int)
    | Observe(id: nat, route: Option<string>, verb: string, seconds: real)  // the `finally` clause begins
    | Leave(id: nat)                   // `http_in_flight(-1)`
    | Other(e: Event)                  // any other registry call

  /** The route template, never the raw path. */
  function RouteLabel(route: Option<string>): string {
    if route == None || route == Some("") then "unmatched" else route.value
  }

  predicate Enabled(s: State, a: Action) {
    match a
    case Enter(id) => id !in s.seen
    case ResponseStart(id, _) => id in s.open
    case Observe(id, _, _, _) => id in s.open && !s.open[id].observed
    case Leave(id) => id in s.open && s.open[id].observed
    case Other(e) => !e.InFlight? && !e.Http? && (e.Gauge? ==> e.series != IN_FLIGHT)
  }

  /** Without a response start a request counts as status 500. */
  function Do(s: State, a: Action): State
    requires Enabled(s, a)
  {
    match a
    case Enter(id) =>
      State(s.log + [InFlight(1)], s.owners + [None], s.open[id := Open(500, false)], s.seen + {id})
    case ResponseStart(id, status) => s.(open := s.open[id := s.open[id].(status := status)])
    case Observe(id, route, verb, seconds) =>
      s.(log := s.log + [Http(RouteLabel(route), verb, s.open[id].status, seconds)],
         owners := s.owners + [Some(id)], open := s.open[id := s.open[id].(observed := true)])
    case Leave(id) => s.(log := s.log + [InFlight(-1)], owners := s.owners + [None], open := s.open - {id})
    case Other(e) => s.(log := s.log + [e], owners := s.owners + [None])
  }

  const INIT := State([], [], map[], {})

  function Exec(run: seq<Action>): State
    requires Legal(run)
    decreases |run|, 1
  {
    if run == [] then INIT else Do(Exec(run[..|run| - 1]), run[|run| - 1])
  }

  predicate Legal(run: seq<Action>)
    decreases |run|, 0
  {
    run == [] || (Legal(run[..|run| - 1]) && Enabled(Exec(run[..|run| - 1]), run[|run| - 1]))
  }

  // ---------- the gauge ----------

  ghost predicate GaugeInv(s: State) {
    && (forall id :: id in s.open ==> id in s.seen)
    && GaugeValue(s.log, IN_FLIGHT) == |s.open| as real
  }

  lemma OpenSize(m: map<nat, Open>, id: nat, o: Open)
    ensures |m[id := o]| == |m| + if id in m then 0 else 1
    ensures id in m ==> |m - {id}| == |m| - 1
  {
    if id in m { assert (m - {id})[id := m[id]] == m; }
  }

  /** How many requests enter, less those that leave. */
  function Change(a: Action): int { if a.Enter? then 1 else if a.Leave? then -1 else 0 }

  lemma DoChangesGauge(s: State, a: Action)
    requires Enabled(s, a)
    ensures GaugeValue(Do(s, a).log, IN_FLIGHT) == GaugeValue(s.log, IN_FLIGHT) + Change(a) as real
  {
    match a
    case Enter(_) => Append(s.log, InFlight(1));
    case ResponseStart(_, _) =>
    case Observe(id, route, verb, seconds) => Append(s.log, Http(RouteLabel(route), verb, s.open[id].status, seconds));
    case Leave(_) => Append(s.log, InFlight(-1));
    case Other(e) => Append(s.log, e);
  }

  lemma DoChangesOpen(s: State, a: Action)
    requires Enabled(s, a) && forall id :: id in s.open ==> id in s.seen
    ensures |Do(s, a).open| == |s.open| + Change(a)
    ensures forall id :: id in Do(s, a).open ==> id in Do(s, a).seen
  {
    match a
    case Enter(id) => OpenSize(s.open, id, Open(500, false));
    case ResponseStart(id, status) => OpenSize(s.open, id, s.open[id].(status := status));
    case Observe(id, _, _, _) => OpenSize(s.open, id, s.open[id].(observed := true));
    case Leave(id) => OpenSize(s.open, id, s.open[id]);
    case Other(_) =>
  }

  lemma DoKeepsGauge(s: State, a: Action)
    requires GaugeInv(s) && Enabled(s, a)
    ensures GaugeInv(Do(s, a))
  {
    DoChangesGauge(s, a);
    DoChangesOpen(s, a);
  }

  /** In every interleaving the gauge is the number of requests that entered and have
      not left, so it is zero once all have. */
  lemma {:induction false} GaugeCountsOpenRequests(run: seq<Action>)
    requires Legal(run)
    ensures GaugeInv(Exec(run))
    ensures Exec(run).open == map[] ==> GaugeValue(Exec(run).log, IN_FLIGHT) == 0.0
  {
    if run != [] {
      var front := run[..|run| - 1];
      GaugeCountsOpenRequests(front);
      DoKeepsGauge(Exec(front), run[|run| - 1]);
    }
  }

  // ---------- one entry per request ----------

  function Entries(owners: seq<Option<nat>>, id: nat): nat {
    if owners == [] then 0 else
      Entries(owners[..|owners| - 1], id) + if owners[|owners| - 1] == Some(id) then 1 else 0
  }

  lemma EntriesNext(owners: seq<Option<nat>>, o: Option<nat>, id: nat)
    ensures Entries(owners + [o], id) == Entries(owners, id) + if o == Some(id) then 1 else 0
  {
    assert (owners + [o])[..|owners|] == owners;
  }

  /** A request has one entry if it was observed, and none otherwise. */
  ghost predicate EntryCounts(s: State, id: nat) {
    Entries(s.owners, id) == if id in s.seen && (id in s.open ==> s.open[id].observed) then 1 else 0
  }

  /** Which requests have an entry, and that none has two. */
  ghost predicate EntryInv(s: State) {
    && (forall id :: id in s.open ==> id in s.seen)
    && forall id :: EntryCounts(s, id)
  }

  lemma DoKeepsEntryCount(s: State, a: Action, id: nat)
    requires EntryInv(s) && Enabled(s, a)
    ensures EntryCounts(Do(s, a), id)
  {
    var s' := Do(s, a);
    assert EntryCounts(s, id);
    if !a.ResponseStart? { EntriesNext(s.owners, s'.owners[|s.owners|], id); }
  }

  lemma DoKeepsEntries(s: State, a: Action)
    requires EntryInv(s) && Enabled(s, a)
    ensures EntryInv(Do(s, a))
  {
    var s' := Do(s, a);
    forall id ensures EntryCounts(s', id) { DoKeepsEntryCount(s, a, id); }
  }

  /** In every interleaving a request has at most one entry, and exactly one once it
      has left. */
  lemma {:induction false} EachRequestIsCountedOnce(run: seq<Action>)
    requires Legal(run)
    ensures EntryInv(Exec(run))
  {
    if run != [] {
      var front := run[..|run| - 1];
      EachRequestIsCountedOnce(front);
      DoKeepsEntries(Exec(front), run[|run| - 1]);
    }
  }

  /** At rest the gauge is zero and every request that ever entered has one entry. */
  lemma AtRestAllAreCounted(run: seq<Action>)
    requires Legal(run) && Exec(run).open == map[]
    ensures var s := Exec(run);
      && GaugeValue(s.log, IN_FLIGHT) == 0.0
      && forall id :: Entries(s.owners, id) == if id in s.seen then 1 else 0
  {
    GaugeCountsOpenRequests(run);
    EachRequestIsCountedOnce(run);
    forall id ensures Entries(Exec(run).owners, id) == if id in Exec(run).seen then 1 else 0 {
      assert EntryCounts(Exec(run), id);
    }
  }

  // ---------- with its last status ----------

  predicate Observed(run: seq<Action>, id: nat) { exists i :: 0 <= i < |run| && run[i].Observe? && run[i].id == id }

  /** The statuses a request sent before it was counted. */
  function Sent(run: seq<Action>, id: nat): seq<int> {
    if run == [] then [] else
      var front, last := run[..|run| - 1], run[|run| - 1];
      Sent(front, id) + if last.ResponseStart? && last.id == id && !Observed(front, id) then [last.status] else []
  }

  function LastStatus(sent: seq<int>): int { if sent == [] then 500 else sent[|sent| - 1] }

  /** An open request shows its last status. */
  ghost predicate Shown(s: State, run: seq<Action>, id: nat) {
    && (id !in s.seen ==> id !in s.open && !Observed(run, id) && Sent(run, id) == [])
    && (id in s.open ==> (s.open[id].observed <==> Observed(run, id)))
    && (id in s.open && !s.open[id].observed ==> s.open[id].status == LastStatus(Sent(run, id)))
  }

  /** The entry repeats what the end of the request told: its verb and duration, and its
      route if it has one, else "unmatched". */
  ghost predicate Repeats(e: Event, a: Action) {
    && a.Observe? && e.Http? && e.verb == a.verb && e.seconds == a.seconds
    && (if a.route.Some? && a.route.value != "" then e.route == a.route.value else e.route == "unmatched")
  }

  ghost predicate Told(e: Event, run: seq<Action>, id: nat) {
    exists k :: 0 <= k < |run| && run[k].Observe? && run[k].id == id && Repeats(e, run[k])
  }

  /** An entry has the last status of its owner, and repeats the rest. */
  ghost predicate EntryShown(s: State, run: seq<Action>, i: nat)
    requires i < |s.log| == |s.owners|
  {
    s.owners[i].Some? ==>
      var id := s.owners[i].value;
      Observed(run, id) && Told(s.log[i], run, id) && s.log[i].status == LastStatus(Sent(run, id))
  }

  lemma ToldNext(e: Event, front: seq<Action>, a: Action, id: nat)
    requires Told(e, front, id) || (a.Observe? && a.id == id && Repeats(e, a))
    ensures Told(e, front + [a], id)
  {
    var run := front + [a];
    assert run[|front|] == a;
    if Told(e, front, id) {
      var k :| 0 <= k < |front| && front[k].Observe? && front[k].id == id && Repeats(e, front[k]);
      assert run[k] == front[k];
    }
  }

  lemma ObservedNext(front: seq<Action>, a: Action, id: nat)
    ensures Observed(front + [a], id) <==> Observed(front, id) || (a.Observe? && a.id == id)
  {
    var run := front + [a];
    assert run[|front|] == a;
    if Observed(front, id) {
      var i :| 0 <= i < |front| && front[i].Observe? && front[i].id == id;
      assert run[i] == front[i];
    }
    if Observed(run, id) {
      var i :| 0 <= i < |run| && run[i].Observe? && run[i].id == id;
      if i < |front| { assert front[i] == run[i]; }
    }
  }

  lemma SentNext(front: seq<Action>, a: Action, id: nat)
    ensures Sent(front + [a], id) == Sent(front, id) +
              if a.ResponseStart? && a.id == id && !Observed(front, id) then [a.status] else []
  {
    assert (front + [a])[..|front|] == front;
  }

  lemma DoKeepsShown(s: State, front: seq<Action>, a: Action, id: nat)
    requires Shown(s, front, id) && Enabled(s, a)
    ensures Shown(Do(s, a), front + [a], id)
  {
    ObservedNext(front, a, id);
    SentNext(front, a, id);
  }

  lemma DoKeepsEntry(s: State, front: seq<Action>, a: Action, i: nat)
    requires Enabled(s, a) && i < |s.log| == |s.owners| && EntryShown(s, front, i)
    ensures EntryShown(Do(s, a), front + [a], i)
  {
    if s.owners[i].Some? {
      ObservedNext(front, a, s.owners[i].value);
      SentNext(front, a, s.owners[i].value);
      ToldNext(s.log[i], front, a, s.owners[i].value);
    }
  }

  lemma NewEntryIsShown(s: State, front: seq<Action>, a: Action)
    requires Enabled(s, a) && |s.log| == |s.owners| && |Do(s, a).log| > |s.log|
    requires a.Observe? ==> Shown(s, front, a.id)
    ensures EntryShown(Do(s, a), front + [a], |s.log|)
  {
    if a.Observe? {
      ObservedNext(front, a, a.id);
      SentNext(front, a, a.id);
      ToldNext(Latest(Do(s, a).log), front, a, a.id);
    }
  }

  lemma {:induction false} RequestIsShown(run: seq<Action>, id: nat)
    requires Legal(run)
    ensures Shown(Exec(run), run, id)
  {
    if run != [] {
      var front, last := run[..|run| - 1], run[|run| - 1];
      RequestIsShown(front, id);
      DoKeepsShown(Exec(front), front, last, id);
      assert front + [last] == run;
    }
  }

  lemma {:induction false} LogsAreParallel(run: seq<Action>)
    requires Legal(run)
    ensures |Exec(run).owners| == |Exec(run).log|
  {
    if run != [] { LogsAreParallel(run[..|run| - 1]); }
  }

  /** The entry of a request has the last status it sent before it was counted, 500 if
      it sent none, and its verb, duration and route. */
  lemma {:induction false} EntryHasTheLastStatus(run: seq<Action>, i: nat)
    requires Legal(run) && i < |Exec(run).log|
    ensures |Exec(run).owners| == |Exec(run).log| && EntryShown(Exec(run), run, i)
  {
    LogsAreParallel(run);
    var front, last := run[..|run| - 1], run[|run| - 1];
    var s := Exec(front);
    LogsAreParallel(front);
    assert front + [last] == run;
    if i < |s.log| {
      EntryHasTheLastStatus(front, i);
      DoKeepsEntry(s, front, last, i);
    } else {
      if last.Observe? { RequestIsShown(front, last.id); }
      NewEntryIsShown(s, front, last);
    }
  }

  // ---------- every request can complete ----------

  lemma OneMore(run: seq<Action>, a: Action)
    requires Legal(run) && Enabled(Exec(run), a)
    ensures Legal(run + [a]) && Exec(run + [a]) == Do(Exec(run), a)
  {
    assert (run + [a])[..|run|] == run;
  }

  /** After any run, an open request can be counted and leave, with the status it shows. */
  lemma OpenRequestCanLeave(run: seq<Action>, id: nat, route: string, verb: string, seconds: real)
    requires Legal(run) && id in Exec(run).open && !Exec(run).open[id].observed && route != ""
    ensures var more := run + [Observe(id, Some(route), verb, seconds)] + [Leave(id)];
      && Legal(more)
      && Exec(more).log == Exec(run).log + [Http(route, verb, Exec(run).open[id].status, seconds)] + [InFlight(-1)]
      && Exec(more).open == Exec(run).open - {id}
  {
    var a := Observe(id, Some(route), verb, seconds);
    OneMore(run, a);
    OneMore(run + [a], Leave(id));
    assert Exec(run).open[id := Exec(run).open[id].(observed := true)] - {id} == Exec(run).open - {id};
  }

  /** After any run, a new request can enter, and send any statuses. */
  lemma NewRequestCanEnter(run: seq<Action>, id: nat, status: int)
    requires Legal(run) && id !in Exec(run).seen
    ensures var more := run + [Enter(id)];
      && Legal(more) && Exec(more).log == Exec(run).log + [InFlight(1)]
      && Exec(more).open == Exec(run).open[id := Open(500, false)]
      && Legal(more + [ResponseStart(id, status)])
      && Exec(more + [ResponseStart(id, status)]).open == Exec(run).open[id := Open(status, false)]
  {
    OneMore(run, Enter(id));
    OneMore(run + [Enter(id)], ResponseStart(id, status));
    var open: map<nat, Open> := Exec(run).open;
    assert open[id := Open(500, false)][id := Open(status, false)] == open[id := Open(status, false)];
  }

  // ---------- the object ----------

  class Middleware {
    const registry: Registry
    var requests: map<nat, Open>
    ghost var owners: seq<Option<nat>>
    ghost var seen: set<nat>

    ghost function View(): State reads this, registry { State(registry.log, owners, requests, seen) }

    ghost predicate Valid() reads this, registry { registry.Valid() && GaugeInv(View()) }

    constructor (registry: Registry)
      requires registry.Valid() && registry.log == []
      ensures Valid() && this.registry == registry && View() == INIT
    {
      this.registry := registry;
      requests, owners, seen := map[], [], {};
    }

    /** A scope that is not HTTP is passed through and never entered here. */
    method EnterRequest(http: bool, id: nat)
      requires Valid() && Enabled(View(), Enter(id))
      modifies this, registry
      ensures Valid()
      ensures View() == if http then Do(old(View()), Enter(id)) else old(View())
    {
      if !http { return; }
      DoKeepsGauge(View(), Enter(id));
      requests, owners, seen := requests[id := Open(500, false)], owners + [None], seen + {id};
      registry.HttpInFlight(1);
    }

    method StartResponse(id: nat, status: int)
      requires Valid() && Enabled(View(), ResponseStart(id, status))
      modifies this
      ensures Valid() && View() == Do(old(View()), ResponseStart(id, status))
    {
      DoKeepsGauge(View(), ResponseStart(id, status));
      requests := requests[id := requests[id].(status := status)];
    }

    /** The first half of the `finally` clause, reached by a normal return, an
        exception or a cancellation alike. */
    method ObserveRequest(id: nat, route: Option<string>, verb: string, seconds: real)
      requires Valid() && Enabled(View(), Observe(id, route, verb, seconds))
      modifies this, registry
      ensures Valid() && View() == Do(old(View()), Observe(id, route, verb, seconds))
    {
      DoKeepsGauge(View(), Observe(id, route, verb, seconds));
      var status := requests[id].status;
      var path := if route.Some? && route.value != "" then route.value else "unmatched";
      requests, owners := requests[id := requests[id].(observed := true)], owners + [Some(id)];
      registry.ObserveHttpRequest(path, verb, status, seconds);
    }

    /** The second half. */
    method LeaveRequest(id: nat)
      requires Valid() && Enabled(View(), Leave(id))
      modifies this, registry
      ensures Valid() && View() == Do(old(View()), Leave(id))
    {
      DoKeepsGauge(View(), Leave(id));
      requests, owners := requests - {id}, owners + [None];
      registry.HttpInFlight(-1);
    }
  }
}
