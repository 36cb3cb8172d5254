/**
 What a request handler does to the outside, step by step: publications
 (`publisher.publish`) and audit writes, in order (app/main.py, lines 94-129).

 A publication that raises ends a list of steps; an audit write that fails is
 only logged. Which calls fail is decided by `faults`.
 */
module Effects {
  import opened Collections

  datatype Phase = Initialized | Processing | Completed | Compensated

  datatype Event =
    | Transition(from: Phase, to: Phase)
    | Telemetry(chunks: nat)
    | IngestionCompensated(reason: string)
    | RecordLogged(kind: string)
    | Processed(id: nat, compensated: bool)
    | TransactionCompensated(cause: Option<nat>, reason: string, boundary: string)
    | PaymentIngested(id: nat)
    | PaymentScored(causedBy: nat, decision: string, score: real, failureReason: string)
    | PaymentCompensated(causedBy: nat)

  datatype Record =
    | TransitionRecord(from: Phase, to: Phase)
    | CompensationRecord(boundary: string, reason: string)
    | RequestRecord(kind: string)

  /** The fallible calls of one request. Publications are numbered in the order in
      which they are attempted, audit writes by the place that makes them. */
  datatype Call =
    | Publish(n: nat, event: Event) | TransitionAudit(n: nat) | CompensationAudit(n: nat)
    | RequestAudit | StoreAdd | StoreRemove | Splitting
    | ModelSetup | PaymentIntake | ScoringPolicy

  type Faults = Call -> bool

  datatype Effect = Audit(record: Record, call: Call) | Announce(event: Event)

  /** What was published and audited, the number of the next publication, and
      whether a publication raised. */
  datatype Run = Run(published: seq<Event>, audited: seq<Record>, publishes: nat, raised: bool)

  /** An audit write leaves its record unless the call fails. */
  function Kept(r: Record, c: Call, faults: Faults): seq<Record> { if faults(c) then [] else [r] }

  /** Perform the steps, the next publication being number `n`. */
  function Perform(fx: seq<Effect>, faults: Faults, n: nat): Run
    decreases |fx|
  {
    if fx == [] then Run([], [], n, false)
    else
      match fx[0]
      case Audit(r, c) =>
        var rest := Perform(fx[1..], faults, n);
        rest.(audited := Kept(r, c, faults) + rest.audited)
      case Announce(e) =>
        if faults(Publish(n, e)) then Run([], [], n + 1, true)
        else
          var rest := Perform(fx[1..], faults, n + 1);
          rest.(published := [e] + rest.published)
  }

  /** One run after another. */
  function Join(a: Run, b: Run): Run {
    Run(a.published + b.published, a.audited + b.audited, b.publishes, b.raised)
  }

  lemma {:induction false} PerformConcat(a: seq<Effect>, b: seq<Effect>, faults: Faults, n: nat)
    ensures var ra := Perform(a, faults, n);
      Perform(a + b, faults, n) == if ra.raised then ra else Join(ra, Perform(b, faults, ra.publishes))
    decreases |a|
  {
    if a == [] {
      assert a + b == b;
      var rb := Perform(b, faults, n);
      assert [] + rb.published == rb.published && [] + rb.audited == rb.audited;
    } else {
      assert (a + b)[1..] == a[1..] + b;
      match a[0]
      case Audit(r, c) =>
        PerformConcat(a[1..], b, faults, n);
        var ra := Perform(a[1..], faults, n);
        Associative(Kept(r, c, faults), ra.audited, Perform(b, faults, ra.publishes).audited);
      case Announce(e) =>
        PerformConcat(a[1..], b, faults, n + 1);
        var ra := Perform(a[1..], faults, n + 1);
        Associative([e], ra.published, Perform(b, faults, ra.publishes).published);
    }
  }

  lemma PerformOne(f: Effect, faults: Faults, n: nat)
    ensures Perform([f], faults, n) ==
      if f.Audit? then Run([], Kept(f.record, f.call, faults), n, false)
      else if faults(Publish(n, f.event)) then Run([], [], n + 1, true)
      else Run([f.event], [], n + 1, false)
  {
    assert [f][1..] == [];
  }

  // ---------- the events of a list of steps ----------

  /** Everything the steps would publish. */
  function Events(fx: seq<Effect>): seq<Event> {
    if fx == [] then [] else (if fx[0].Announce? then [fx[0].event] else []) + Events(fx[1..])
  }

  lemma {:induction false} EventsOfConcat(a: seq<Effect>, b: seq<Effect>)
    ensures Events(a + b) == Events(a) + Events(b)
  {
    if a == [] {
      assert a + b == b;
    } else {
      assert (a + b)[1..] == a[1..] + b;
      EventsOfConcat(a[1..], b);
      Associative(if a[0].Announce? then [a[0].event] else [], Events(a[1..]), Events(b));
    }
  }

  lemma EventsOfOne(f: Effect)
    ensures Events([f]) == if f.Announce? then [f.event] else []
  {
    assert [f][1..] == [];
  }

  /** `r` published what comes before the first of `events` whose publication raises. */
  ghost predicate Prefixed(r: Run, events: seq<Event>, faults: Faults, n: nat) {
    var k := |r.published|;
    && r.published <= events
    && (r.raised <==> k < |events|)
    && r.publishes == n + k + (if r.raised then 1 else 0)
    && (r.raised ==> faults(Publish(n + k, events[k])))
  }

  lemma PrefixedNext(e: Event, rest: Run, events: seq<Event>, faults: Faults, n: nat)
    requires Prefixed(rest, events, faults, n + 1)
    ensures Prefixed(rest.(published := [e] + rest.published), [e] + events, faults, n)
  {
    if rest.raised { assert ([e] + events)[|rest.published| + 1] == events[|rest.published|]; }
  }

  lemma {:induction false} PublishedIsAPrefix(fx: seq<Effect>, faults: Faults, n: nat)
    ensures Prefixed(Perform(fx, faults, n), Events(fx), faults, n)
    decreases |fx|
  {
    if fx != [] {
      if fx[0].Audit? {
        PublishedIsAPrefix(fx[1..], faults, n);
        assert [] + Events(fx[1..]) == Events(fx[1..]);
      } else if !faults(Publish(n, fx[0].event)) {
        PublishedIsAPrefix(fx[1..], faults, n + 1);
        PrefixedNext(fx[0].event, Perform(fx[1..], faults, n + 1), Events(fx[1..]), faults, n);
      }
    }
  }

  /** No publication of these events, numbered from `n`, raises. */
  ghost predicate Quiet(events: seq<Event>, faults: Faults, n: nat) {
    forall k :: 0 <= k < |events| ==> !faults(Publish(n + k, events[k]))
  }

  lemma QuietParts(a: seq<Event>, b: seq<Event>, faults: Faults, n: nat)
    requires Quiet(a + b, faults, n)
    ensures Quiet(a, faults, n) && Quiet(b, faults, n + |a|)
  {
    assert forall k :: 0 <= k < |a| ==> (a + b)[k] == a[k];
    forall k | 0 <= k < |b| ensures !faults(Publish(n + |a| + k, b[k])) {
      assert (a + b)[|a| + k] == b[k];
    }
  }

  lemma QuietRunsThrough(fx: seq<Effect>, faults: Faults, n: nat)
    requires Quiet(Events(fx), faults, n)
    ensures var r := Perform(fx, faults, n); !r.raised && r.published == Events(fx) && r.publishes == n + |Events(fx)|
  {
    PublishedIsAPrefix(fx, faults, n);
  }

  lemma QuietNext(e: Event, events: seq<Event>, faults: Faults, n: nat)
    requires !faults(Publish(n, e)) && Quiet(events, faults, n + 1)
    ensures Quiet([e] + events, faults, n)
  {
    forall k | 0 <= k < |[e] + events| ensures !faults(Publish(n + k, ([e] + events)[k])) {
      if k > 0 { assert !faults(Publish(n + 1 + (k - 1), events[k - 1])); }
    }
  }

  lemma {:induction false} RunsThroughOnlyIfQuiet(fx: seq<Effect>, faults: Faults, n: nat)
    requires !Perform(fx, faults, n).raised
    ensures Quiet(Events(fx), faults, n)
    decreases |fx|
  {
    if fx != [] {
      if fx[0].Audit? {
        RunsThroughOnlyIfQuiet(fx[1..], faults, n);
        assert Events(fx) == Events(fx[1..]);
      } else {
        RunsThroughOnlyIfQuiet(fx[1..], faults, n + 1);
        QuietNext(fx[0].event, Events(fx[1..]), faults, n);
      }
    }
  }

  // ---------- the records of a list of steps ----------

  /** Everything the steps would audit. */
  function Records(fx: seq<Effect>, faults: Faults): seq<Record> {
    if fx == [] then []
    else (if fx[0].Audit? then Kept(fx[0].record, fx[0].call, faults) else []) + Records(fx[1..], faults)
  }

  lemma {:induction false} RecordsOfConcat(a: seq<Effect>, b: seq<Effect>, faults: Faults)
    ensures Records(a + b, faults) == Records(a, faults) + Records(b, faults)
  {
    if a == [] {
      assert a + b == b;
    } else {
      assert (a + b)[1..] == a[1..] + b;
      RecordsOfConcat(a[1..], b, faults);
      Associative(if a[0].Audit? then Kept(a[0].record, a[0].call, faults) else [],
                  Records(a[1..], faults), Records(b, faults));
    }
  }

  lemma RecordsOfOne(f: Effect, faults: Faults)
    ensures Records([f], faults) == if f.Audit? then Kept(f.record, f.call, faults) else []
  {
    assert [f][1..] == [];
  }

  /** The steps up to the first publication that raises, or all of them. */
  function Done(fx: seq<Effect>, faults: Faults, n: nat): seq<Effect>
    decreases |fx|
  {
    if fx == [] then []
    else if fx[0].Audit? then [fx[0]] + Done(fx[1..], faults, n)
    else if faults(Publish(n, fx[0].event)) then []
    else [fx[0]] + Done(fx[1..], faults, n + 1)
  }

  predicate Stops(f: Effect, faults: Faults, n: nat) { f.Announce? && faults(Publish(n, f.event)) }

  lemma FirstStep(f: Effect, fx: seq<Effect>, faults: Faults)
    ensures Events([f] + fx) == (if f.Announce? then [f.event] + Events(fx) else Events(fx))
    ensures Records([f] + fx, faults) ==
            if f.Audit? then Kept(f.record, f.call, faults) + Records(fx, faults) else Records(fx, faults)
  {
    assert ([f] + fx)[1..] == fx;
    assert [] + Events(fx) == Events(fx) && [] + Records(fx, faults) == Records(fx, faults);
  }

  ghost predicate IsCut(r: Run, done: seq<Effect>, fx: seq<Effect>, faults: Faults, n: nat) {
    && done <= fx && r.published == Events(done) && r.audited == Records(done, faults)
    && (r.raised <==> done != fx)
    && (r.raised ==> Stops(fx[|done|], faults, n + |r.published|))
  }

  lemma LongerPrefix(f: Effect, done: seq<Effect>, fx: seq<Effect>)
    requires done <= fx
    ensures [f] + done <= [f] + fx && ([f] + done == [f] + fx <==> done == fx)
    ensures done != fx ==> ([f] + fx)[|[f] + done|] == fx[|done|]
  {
    assert [f] + fx == [f] + done + fx[|done|..];
  }

  lemma CutAfterRecord(f: Effect, fx: seq<Effect>, done: seq<Effect>, faults: Faults, n: nat)
    requires f.Audit? && IsCut(Perform(fx, faults, n), done, fx, faults, n)
    ensures IsCut(Perform([f] + fx, faults, n), [f] + done, [f] + fx, faults, n)
  {
    FirstStep(f, done, faults);
    LongerPrefix(f, done, fx);
    assert ([f] + fx)[1..] == fx;
  }

  lemma CutAfterEvent(f: Effect, fx: seq<Effect>, done: seq<Effect>, faults: Faults, n: nat)
    requires f.Announce? && !faults(Publish(n, f.event)) && IsCut(Perform(fx, faults, n + 1), done, fx, faults, n + 1)
    ensures IsCut(Perform([f] + fx, faults, n), [f] + done, [f] + fx, faults, n)
  {
    FirstStep(f, done, faults);
    LongerPrefix(f, done, fx);
    assert ([f] + fx)[1..] == fx;
  }

  /** A run is cut where a publication raises: up to there everything is published and
      audited, and nothing afterwards. */
  lemma {:induction false} RunIsCut(fx: seq<Effect>, faults: Faults, n: nat)
    ensures IsCut(Perform(fx, faults, n), Done(fx, faults, n), fx, faults, n)
    decreases |fx|
  {
    if fx != [] {
      assert fx == [fx[0]] + fx[1..];
      if fx[0].Audit? {
        RunIsCut(fx[1..], faults, n);
        CutAfterRecord(fx[0], fx[1..], Done(fx[1..], faults, n), faults, n);
      } else if !faults(Publish(n, fx[0].event)) {
        RunIsCut(fx[1..], faults, n + 1);
        CutAfterEvent(fx[0], fx[1..], Done(fx[1..], faults, n + 1), faults, n);
      }
    }
  }

  lemma AllRecords(fx: seq<Effect>, faults: Faults, n: nat)
    requires !Perform(fx, faults, n).raised
    ensures Perform(fx, faults, n).audited == Records(fx, faults)
  {
    RunIsCut(fx, faults, n);
  }

  // ---------- request records ----------

  predicate IsRequestRecord(r: Record) { r.RequestRecord? }

  function RequestRecords(r: Run): seq<Record> { Filter(IsRequestRecord, r.audited) }

  lemma {:induction false} NoRequestRecords(fx: seq<Effect>, faults: Faults, n: nat)
    requires forall i :: 0 <= i < |fx| && fx[i].Audit? ==> !IsRequestRecord(fx[i].record)
    ensures RequestRecords(Perform(fx, faults, n)) == []
    decreases |fx|
  {
    if fx != [] {
      NoRequestRecords(fx[1..], faults, if fx[0].Audit? then n else n + 1);
      if fx[0].Audit? {
        FilterConcat(IsRequestRecord, Kept(fx[0].record, fx[0].call, faults), Perform(fx[1..], faults, n).audited);
        FilterOne(IsRequestRecord, fx[0].record);
      }
    }
  }

  /** One step that audits a request, after others that do not and before such. */
  lemma OneRequestRecord(a: seq<Effect>, kind: string, b: seq<Effect>, faults: Faults, n: nat)
    requires forall i :: 0 <= i < |a| && a[i].Audit? ==> !IsRequestRecord(a[i].record)
    requires forall i :: 0 <= i < |b| && b[i].Audit? ==> !IsRequestRecord(b[i].record)
    ensures RequestRecords(Perform(a + ([Audit(RequestRecord(kind), RequestAudit)] + b), faults, n))
         == if Perform(a, faults, n).raised then [] else Kept(RequestRecord(kind), RequestAudit, faults)
  {
    var step := Audit(RequestRecord(kind), RequestAudit);
    var ra := Perform(a, faults, n);
    NoRequestRecords(a, faults, n);
    PerformConcat(a, [step] + b, faults, n);
    if !ra.raised {
      var m := ra.publishes;
      var rb := Perform(b, faults, m);
      assert ([step] + b)[1..] == b;
      NoRequestRecords(b, faults, m);
      FilterConcat(IsRequestRecord, ra.audited, Kept(RequestRecord(kind), RequestAudit, faults) + rb.audited);
      FilterConcat(IsRequestRecord, Kept(RequestRecord(kind), RequestAudit, faults), rb.audited);
      FilterOne(IsRequestRecord, RequestRecord(kind));
    }
  }

  // ---------- terminal transitions ----------

  predicate IsTerminal(e: Event) { e.Transition? && (e.to.Completed? || e.to.Compensated?) }

  /** The terminal transitions among `events`, in order. */
  function Ends(events: seq<Event>): seq<Event> { Filter(IsTerminal, events) }

  const START := Transition(Initialized, Processing)

  function End(completed: bool): Event { Transition(Processing, if completed then Completed else Compensated) }

  /** Of a list with one terminal transition, at `i`, a prefix has it or has none. */
  lemma EndsOfPrefix(events: seq<Event>, i: nat, k: nat)
    requires i < |events| && k <= |events| && forall j :: 0 <= j < |events| ==> (IsTerminal(events[j]) <==> j == i)
    ensures Ends(events[..k]) == if k > i then [events[i]] else []
  {
    if k > i { FilterOnlyAt(IsTerminal, events[..k], i); } else { FilterNothing(IsTerminal, events[..k]); }
  }

  // ---------- the audit trail ----------

  predicate IsTransition(e: Event) { e.Transition? }

  predicate IsTransitionRecord(r: Record) { r.TransitionRecord? }

  function AsRecord(e: Event): Record { if e.Transition? then TransitionRecord(e.from, e.to) else RequestRecord("") }

  /** `record_transition`: the record first, then the event. */
  function Moving(e: Event, n: nat): seq<Effect> { [Audit(AsRecord(e), TransitionAudit(n))] + [Announce(e)] }

  lemma PairPerformed(fx: seq<Effect>, faults: Faults, n: nat)
    requires |fx| >= 2 && fx[0].Audit? && fx[1].Announce?
    ensures var kept, e := Kept(fx[0].record, fx[0].call, faults), fx[1].event;
      var rest := Perform(fx[2..], faults, n + 1);
      Perform(fx, faults, n) == if faults(Publish(n, e)) then Run([], kept, n + 1, true)
                                else rest.(audited := kept + rest.audited, published := [e] + rest.published)
  {
    assert fx[1..][0] == fx[1] && fx[1..][1..] == fx[2..];
  }

  lemma MovingPublishes(fx: seq<Effect>, e: Event, m: nat, faults: Faults, n: nat)
    requires Moving(e, m) <= fx
    ensures Perform(fx, faults, n).published == [] <==> faults(Publish(n, e))
  {
    assert fx[0] == Audit(AsRecord(e), TransitionAudit(m)) && fx[1] == Announce(e);
    PairPerformed(fx, faults, n);
  }

  /** Every transition is made by `record_transition`. */
  predicate Paired(fx: seq<Effect>)
    decreases |fx|
  {
    if fx == [] then true
    else
      match fx[0]
      case Audit(r, c) =>
        if r.TransitionRecord? then
          && |fx| >= 2 && fx[1].Announce? && IsTransition(fx[1].event)
          && AsRecord(fx[1].event) == r && c.TransitionAudit? && Paired(fx[2..])
        else Paired(fx[1..])
      case Announce(e) => !IsTransition(e) && Paired(fx[1..])
  }

  lemma PairedOne(f: Effect)
    requires f.Audit? ==> !f.record.TransitionRecord?
    requires f.Announce? ==> !IsTransition(f.event)
    ensures Paired([f])
  {
    assert [f][1..] == [];
  }

  lemma MovingFacts(e: Event, n: nat)
    requires IsTransition(e)
    ensures Events(Moving(e, n)) == [e] && Paired(Moving(e, n))
  {
    var fx := Moving(e, n);
    EventsOfConcat([fx[0]], [fx[1]]);
    EventsOfOne(fx[0]);
    EventsOfOne(fx[1]);
    assert fx[2..] == [];
  }

  lemma {:induction false} PairedConcat(a: seq<Effect>, b: seq<Effect>)
    requires Paired(a) && Paired(b)
    ensures Paired(a + b)
    decreases |a|
  {
    if a == [] {
      assert a + b == b;
    } else if a[0].Audit? && a[0].record.TransitionRecord? {
      assert (a + b)[2..] == a[2..] + b;
      PairedConcat(a[2..], b);
    } else {
      assert (a + b)[1..] == a[1..] + b;
      PairedConcat(a[1..], b);
    }
  }

  /** The transition that was audited although its own publication raised, if any. */
  function Orphan(fx: seq<Effect>, faults: Faults, n: nat): seq<Record>
    requires Paired(fx)
    decreases |fx|
  {
    if fx == [] then []
    else
      match fx[0]
      case Audit(r, c) =>
        if !r.TransitionRecord? then Orphan(fx[1..], faults, n)
        else if faults(Publish(n, fx[1].event)) then Kept(r, c, faults)
        else Orphan(fx[2..], faults, n + 1)
      case Announce(e) => if faults(Publish(n, e)) then [] else Orphan(fx[1..], faults, n + 1)
  }

  lemma {:induction false} AnnouncesHaveNoOrphan(fx: seq<Effect>, faults: Faults, n: nat)
    requires Paired(fx) && forall i :: 0 <= i < |fx| ==> fx[i].Announce?
    ensures Orphan(fx, faults, n) == []
    decreases |fx|
  {
    if fx != [] { AnnouncesHaveNoOrphan(fx[1..], faults, n + 1); }
  }

  lemma {:induction false} QuietHasNoOrphan(fx: seq<Effect>, faults: Faults, n: nat)
    requires Paired(fx) && Quiet(Events(fx), faults, n)
    ensures Orphan(fx, faults, n) == []
    decreases |fx|
  {
    if fx != [] {
      var events := Events(fx);
      match fx[0]
      case Audit(r, _) =>
        assert events == Events(fx[1..]);
        if !r.TransitionRecord? {
          QuietHasNoOrphan(fx[1..], faults, n);
        } else {
          assert fx[1..][0] == fx[1] && fx[1..][1..] == fx[2..];
          assert events == [fx[1].event] + Events(fx[2..]);
          QuietParts([fx[1].event], Events(fx[2..]), faults, n);
          assert events[0] == fx[1].event;
          QuietHasNoOrphan(fx[2..], faults, n + 1);
        }
      case Announce(e) =>
        QuietParts([e], Events(fx[1..]), faults, n);
        QuietHasNoOrphan(fx[1..], faults, n + 1);
    }
  }

  /** Which published transitions were audited. */
  function Audited(fx: seq<Effect>, faults: Faults, n: nat): seq<bool>
    requires Paired(fx)
    decreases |fx|
  {
    if fx == [] then []
    else
      match fx[0]
      case Audit(r, c) =>
        if !r.TransitionRecord? then Audited(fx[1..], faults, n)
        else if faults(Publish(n, fx[1].event)) then []
        else [!faults(c)] + Audited(fx[2..], faults, n + 1)
      case Announce(e) => if faults(Publish(n, e)) then [] else Audited(fx[1..], faults, n + 1)
  }

  /** `records` are the transitions `events`, in order, without those not in `keep`. */
  ghost predicate Follows(records: seq<Record>, events: seq<Event>, keep: seq<bool>) {
    |keep| == |events| && records == Map(AsRecord, Select(events, keep))
  }

  /** The audited transitions are a subsequence of the published ones. */
  ghost predicate TrailFollows(r: Run) {
    exists keep :: Follows(Filter(IsTransitionRecord, r.audited), Filter(IsTransition, r.published), keep)
  }

  lemma KeptFiltered(r: Record, c: Call, faults: Faults)
    ensures Filter(IsTransitionRecord, Kept(r, c, faults)) == if r.TransitionRecord? then Kept(r, c, faults) else []
  {
    FilterOne(IsTransitionRecord, r);
  }

  /** A record that is no transition, before the rest. */
  lemma NoteTrail(r: Record, c: Call, rest: Run, faults: Faults)
    requires !r.TransitionRecord?
    ensures Filter(IsTransitionRecord, Kept(r, c, faults) + rest.audited) == Filter(IsTransitionRecord, rest.audited)
  {
    FilterConcat(IsTransitionRecord, Kept(r, c, faults), rest.audited);
    KeptFiltered(r, c, faults);
  }

  /** An event that is no transition, before the rest. */
  lemma EventTrail(e: Event, rest: seq<Event>)
    requires !IsTransition(e)
    ensures Filter(IsTransition, [e] + rest) == Filter(IsTransition, rest)
  {
    FilterFirst(IsTransition, e, rest);
  }

  /** A published transition with its record, before the rest. */
  lemma PairTrail(e: Event, c: Call, faults: Faults, rest: Run, keep: seq<bool>, orphan: seq<Record>)
    requires IsTransition(e) && |keep| == |Filter(IsTransition, rest.published)|
    requires Filter(IsTransitionRecord, rest.audited)
          == Map(AsRecord, Select(Filter(IsTransition, rest.published), keep)) + orphan
    ensures var events := Filter(IsTransition, [e] + rest.published);
      && |[!faults(c)] + keep| == |events|
      && Filter(IsTransitionRecord, Kept(AsRecord(e), c, faults) + rest.audited)
         == Map(AsRecord, Select(events, [!faults(c)] + keep)) + orphan
  {
    var events := Filter(IsTransition, rest.published);
    FilterFirst(IsTransition, e, rest.published);
    SelectFirst(e, events, !faults(c), keep);
    FilterConcat(IsTransitionRecord, Kept(AsRecord(e), c, faults), rest.audited);
    KeptFiltered(AsRecord(e), c, faults);
    var first, later := (if faults(c) then [] else [e]), Select(events, keep);
    MapConcat(AsRecord, first, later);
    assert Map(AsRecord, first) == Kept(AsRecord(e), c, faults);
    Associative(Map(AsRecord, first), Map(AsRecord, later), orphan);
  }

  /**
   The audited transitions are the published ones in order, without those whose
   audit write failed, followed by the orphan: a subsequence exactly as long as no
   audited transition's own publication raised.
   */
  lemma {:induction false} TrailOf(fx: seq<Effect>, faults: Faults, n: nat)
    requires Paired(fx)
    ensures var r := Perform(fx, faults, n);
      var events, keep := Filter(IsTransition, r.published), Audited(fx, faults, n);
      && |keep| == |events|
      && Filter(IsTransitionRecord, r.audited) == Map(AsRecord, Select(events, keep)) + Orphan(fx, faults, n)
    decreases |fx|
  {
    if fx != [] {
      match fx[0]
      case Audit(r, c) =>
        if !r.TransitionRecord? {
          TrailOf(fx[1..], faults, n);
          NoteTrail(r, c, Perform(fx[1..], faults, n), faults);
        } else if !faults(Publish(n, fx[1].event)) {
          TrailOf(fx[2..], faults, n + 1);
          PairPerformed(fx, faults, n);
          PairTrail(fx[1].event, c, faults, Perform(fx[2..], faults, n + 1),
                    Audited(fx[2..], faults, n + 1), Orphan(fx[2..], faults, n + 1));
        } else {
          PairPerformed(fx, faults, n);
          KeptFiltered(r, c, faults);
        }
      case Announce(e) =>
        if !faults(Publish(n, e)) {
          TrailOf(fx[1..], faults, n + 1);
          EventTrail(e, Perform(fx[1..], faults, n + 1).published);
        }
    }
  }

  lemma TrailHolds(fx: seq<Effect>, faults: Faults, n: nat)
    requires Paired(fx) && Orphan(fx, faults, n) == []
    ensures TrailFollows(Perform(fx, faults, n))
  {
    TrailOf(fx, faults, n);
    var r := Perform(fx, faults, n);
    assert Follows(Filter(IsTransitionRecord, r.audited), Filter(IsTransition, r.published), Audited(fx, faults, n));
  }

  lemma TrailsJoin(a: Run, b: Run)
    requires TrailFollows(a) && TrailFollows(b)
    ensures TrailFollows(Join(a, b))
  {
    var ea, eb := Filter(IsTransition, a.published), Filter(IsTransition, b.published);
    var ra, rb := Filter(IsTransitionRecord, a.audited), Filter(IsTransitionRecord, b.audited);
    var ka :| Follows(ra, ea, ka);
    var kb :| Follows(rb, eb, kb);
    FilterConcat(IsTransition, a.published, b.published);
    FilterConcat(IsTransitionRecord, a.audited, b.audited);
    SelectConcat(ea, eb, ka, kb);
    MapConcat(AsRecord, Select(ea, ka), Select(eb, kb));
    assert Follows(ra + rb, ea + eb, ka + kb);
  }

  lemma {:induction false} SelectAtMost<T>(s: seq<T>, keep: seq<bool>)
    requires |s| == |keep|
    ensures |Select(s, keep)| <= |s|
    ensures (forall i :: 0 <= i < |keep| ==> keep[i]) ==> Select(s, keep) == s
  {
    if s != [] { SelectAtMost(s[1..], keep[1..]); }
  }

  ghost predicate NoTransitionAuditFails(faults: Faults) { forall m :: !faults(TransitionAudit(m)) }

  lemma {:induction false} AllAudited(fx: seq<Effect>, faults: Faults, n: nat)
    requires Paired(fx) && NoTransitionAuditFails(faults)
    ensures forall i :: 0 <= i < |Audited(fx, faults, n)| ==> Audited(fx, faults, n)[i]
    decreases |fx|
  {
    if fx != [] {
      match fx[0]
      case Audit(r, _) =>
        if !r.TransitionRecord? { AllAudited(fx[1..], faults, n); } else { AllAudited(fx[2..], faults, n + 1); }
      case Announce(_) => AllAudited(fx[1..], faults, n + 1);
    }
  }

  /** How many more transitions were audited than published. */
  function Surplus(r: Run): int {
    |Filter(IsTransitionRecord, r.audited)| - |Filter(IsTransition, r.published)|
  }

  /** With no failing audit write, the orphan is the whole surplus. */
  lemma SurplusIsTheOrphan(fx: seq<Effect>, faults: Faults, n: nat)
    requires Paired(fx) && NoTransitionAuditFails(faults)
    ensures Surplus(Perform(fx, faults, n)) == |Orphan(fx, faults, n)|
  {
    TrailOf(fx, faults, n);
    AllAudited(fx, faults, n);
    SelectAtMost(Filter(IsTransition, Perform(fx, faults, n).published), Audited(fx, faults, n));
  }

  lemma SurplusAdds(a: Run, b: Run)
    ensures Surplus(Join(a, b)) == Surplus(a) + Surplus(b)
  {
    FilterConcat(IsTransition, a.published, b.published);
    FilterConcat(IsTransitionRecord, a.audited, b.audited);
  }

  lemma SurplusBreaksTheTrail(r: Run)
    requires Surplus(r) > 0
    ensures !TrailFollows(r)
  {
    var events, records := Filter(IsTransition, r.published), Filter(IsTransitionRecord, r.audited);
    forall keep ensures !Follows(records, events, keep) {
      if |keep| == |events| { SelectAtMost(events, keep); }
    }
  }

  /** The trail of a list of steps: a subsequence if there is no orphan, and, without
      failing audit writes, only then. */
  lemma TrailOfOne(fx: seq<Effect>, faults: Faults, n: nat)
    requires Paired(fx)
    ensures Orphan(fx, faults, n) == [] ==> TrailFollows(Perform(fx, faults, n))
    ensures NoTransitionAuditFails(faults) && TrailFollows(Perform(fx, faults, n)) ==> Orphan(fx, faults, n) == []
  {
    if Orphan(fx, faults, n) == [] { TrailHolds(fx, faults, n); }
    if NoTransitionAuditFails(faults) {
      SurplusIsTheOrphan(fx, faults, n);
      if Orphan(fx, faults, n) != [] { SurplusBreaksTheTrail(Perform(fx, faults, n)); }
    }
  }

  /** The same for one list of steps after another, however the first ended. */
  lemma TrailOfTwo(a: seq<Effect>, b: seq<Effect>, faults: Faults, n: nat)
    requires Paired(a) && Paired(b)
    ensures var ra := Perform(a, faults, n);
      var r := Join(ra, Perform(b, faults, ra.publishes));
      var orphans := Orphan(a, faults, n) + Orphan(b, faults, ra.publishes);
      && (orphans == [] ==> TrailFollows(r))
      && (NoTransitionAuditFails(faults) && TrailFollows(r) ==> orphans == [])
  {
    var ra := Perform(a, faults, n);
    var rb := Perform(b, faults, ra.publishes);
    if Orphan(a, faults, n) + Orphan(b, faults, ra.publishes) == [] {
      TrailHolds(a, faults, n);
      TrailHolds(b, faults, ra.publishes);
      TrailsJoin(ra, rb);
    }
    if NoTransitionAuditFails(faults) {
      SurplusIsTheOrphan(a, faults, n);
      SurplusIsTheOrphan(b, faults, ra.publishes);
      SurplusAdds(ra, rb);
      if Surplus(Join(ra, rb)) > 0 { SurplusBreaksTheTrail(Join(ra, rb)); }
    }
  }

  lemma SameTrail(a: Run, b: Run)
    requires a.published == b.published && a.audited == b.audited
    ensures TrailFollows(a) <==> TrailFollows(b)
  {}
}
