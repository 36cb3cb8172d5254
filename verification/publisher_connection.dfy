/**
 The lazy Kafka connection of EventPublisher (contexts/governance/publisher.py,
 lines 103-146 and 179-187).

 One lock guards `_producer`, `_connecting` and `_next_connection_attempt`; the
 producer is constructed outside it. Publishers, `close()` and the clock
 interleave freely. A constructor may return, raise an `Exception`, or raise
 something else (`ConnectAborts`), which no handler catches.
 */
module KafkaConnection {
  import opened Collections

  /** The fields under `_producer_lock`, and the two settings. */
  datatype Shared = Shared(enabled: bool, backoff: real,
                           producer: Option<nat>, connecting: bool, nextAttempt: real)

  datatype Decision = Use(producer: nat) | Skip | Connect

  /** The first critical section of `_get_producer`. */
  function Decide(sh: Shared, now: real): Decision {
    if !sh.enabled then Skip
    else if sh.producer.Some? then Use(sh.producer.value)
    else if sh.connecting || now < sh.nextAttempt then Skip
    else Connect
  }

  function AfterDecide(sh: Shared, now: real): Shared {
    if Decide(sh, now).Connect? then sh.(connecting := true) else sh
  }

  function AfterFailure(sh: Shared, now: real): Shared {
    sh.(connecting := false, nextAttempt := now + sh.backoff)
  }

  function AfterInstall(sh: Shared, created: nat): Shared {
    sh.(connecting := false, producer := if sh.producer.None? then Some(created) else sh.producer)
  }

  function AfterClose(sh: Shared): Shared { sh.(producer := None) }

  // ---------- the object ----------

  class Connection {
    const enabled: bool
    const backoff: real
    var producer: Option<nat>
    var connecting: bool
    var nextAttempt: real

    function View(): Shared reads this { Shared(enabled, backoff, producer, connecting, nextAttempt) }

    /** `_positive_float` raises the configured back-off to a tenth of a second. */
    constructor (enabled: bool, configured: real)
      ensures View() == Shared(enabled, if configured >= 0.1 then configured else 0.1, None, false, 0.0)
    {
      this.enabled := enabled;
      backoff := if configured >= 0.1 then configured else 0.1;
      producer, connecting, nextAttempt := None, false, 0.0;
    }

    method GetProducer(now: real) returns (d: Decision)
      modifies this
      ensures View() == AfterDecide(old(View()), now)
      ensures d == Decide(old(View()), now)
    {
      if !enabled { return Skip; }
      if producer.Some? { return Use(producer.value); }
      if connecting || now < nextAttempt { return Skip; }
      connecting := true;
      d := Connect;
    }

    method RecordFailure(now: real)
      modifies this
      ensures View() == AfterFailure(old(View()), now)
    {
      connecting := false;
      nextAttempt := now + backoff;
    }

    method Install(created: nat) returns (p: Option<nat>)
      modifies this
      ensures View() == AfterInstall(old(View()), created)
      ensures p == producer && p.Some?
      ensures p == Some(created) <==> old(producer).None? || old(producer) == Some(created)
    {
      connecting := false;
      if producer.None? { producer := Some(created); }
      p := producer;
    }

    method Close() returns (p: Option<nat>)
      modifies this
      ensures View() == AfterClose(old(View())) && p == old(producer)
    {
      p, producer := producer, None;
    }
  }

  // ---------- the protocol ----------

  /** A thread between its two critical sections. */
  datatype Pc = Constructing | Constructed(producer: nat) | Raised

  datatype Outcome = Open | Succeeded | Failed(at: real) | Aborted

  datatype Attempt = Attempt(start: real, outcome: Outcome)

  /** `installed`, `discarded` and `closed` record what became of each producer. */
  datatype State = State(sh: Shared, now: real, inFlight: map<nat, Pc>, attempts: seq<Attempt>,
                         created: set<nat>, discarded: set<nat>, closed: set<nat>)

  datatype Action =
    | Tick(seconds: real)
    | Enter(thread: nat)
    | ConnectReturns(thread: nat, producer: nat)
    | ConnectRaises(thread: nat)
    | ConnectAborts(thread: nat)
    | Fail(thread: nat)
    | Install(thread: nat)
    | Close

  predicate Enabled(s: State, a: Action) {
    match a
    case Tick(d) => d >= 0.0
    case Enter(t) => t !in s.inFlight
    case ConnectReturns(t, p) => t in s.inFlight && s.inFlight[t].Constructing? && p !in s.created
    case ConnectRaises(t) => t in s.inFlight && s.inFlight[t].Constructing?
    case ConnectAborts(t) => t in s.inFlight && s.inFlight[t].Constructing?
    case Fail(t) => t in s.inFlight && s.inFlight[t].Raised?
    case Install(t) => t in s.inFlight && s.inFlight[t].Constructed?
    case Close => true
  }

  /** Settle the attempt in progress. */
  function Settle(attempts: seq<Attempt>, o: Outcome): seq<Attempt> {
    if attempts == [] then [] else attempts[|attempts| - 1 := Attempt(attempts[|attempts| - 1].start, o)]
  }

  function Do(s: State, a: Action): State
    requires Enabled(s, a)
  {
    match a
    case Tick(d) => s.(now := s.now + d)
    case Enter(t) =>
      if Decide(s.sh, s.now).Connect? then
        s.(sh := AfterDecide(s.sh, s.now), inFlight := s.inFlight[t := Constructing],
           attempts := s.attempts + [Attempt(s.now, Open)])
      else s
    case ConnectReturns(t, p) => s.(inFlight := s.inFlight[t := Constructed(p)], created := s.created + {p})
    case ConnectRaises(t) => s.(inFlight := s.inFlight[t := Raised])
    case ConnectAborts(t) => s.(inFlight := s.inFlight - {t}, attempts := Settle(s.attempts, Aborted))
    case Fail(t) =>
      s.(sh := AfterFailure(s.sh, s.now), inFlight := s.inFlight - {t},
         attempts := Settle(s.attempts, Failed(s.now)))
    case Install(t) =>
      var p := s.inFlight[t].producer;
      s.(sh := AfterInstall(s.sh, p), inFlight := s.inFlight - {t},
         attempts := Settle(s.attempts, Succeeded),
         discarded := if s.sh.producer.None? then s.discarded else s.discarded + {p})
    case Close =>
      s.(sh := AfterClose(s.sh),
         closed := if s.sh.producer.Some? then s.closed + {s.sh.producer.value} else s.closed)
  }

  predicate Legal(s: State, run: seq<Action>)
    decreases run
  {
    run == [] || (Enabled(s, run[0]) && Legal(Do(s, run[0]), run[1..]))
  }

  function Exec(s: State, run: seq<Action>): State
    requires Legal(s, run)
    decreases run
  {
    if run == [] then s else Exec(Do(s, run[0]), run[1..])
  }

  function Init(enabled: bool, backoff: real, now: real): State {
    State(Shared(enabled, backoff, None, false, 0.0), now, map[], [], {}, {}, {})
  }

  // ---------- invariants ----------

  ghost predicate AtMostOneInFlight(s: State) {
    forall t, u :: t in s.inFlight && u in s.inFlight ==> t == u
  }

  ghost predicate WasAborted(s: State) {
    exists i :: 0 <= i < |s.attempts| && s.attempts[i].outcome.Aborted?
  }

  /** `_connecting` is set exactly while a thread is between the sections, or for
      ever once a constructor escaped with a non-`Exception`. */
  ghost predicate FlagInv(s: State) {
    && AtMostOneInFlight(s)
    && (s.sh.connecting <==> s.inFlight != map[] || WasAborted(s))
    && (WasAborted(s) ==> s.inFlight == map[])
    && (s.sh.connecting ==> s.sh.producer.None?)
  }

  /** Producers held by threads that have not installed them yet. */
  ghost function Carried(s: State): set<nat> {
    set t | t in s.inFlight && s.inFlight[t].Constructed? :: s.inFlight[t].producer
  }

  ghost function Current(s: State): set<nat> {
    if s.sh.producer.Some? then {s.sh.producer.value} else {}
  }

  /** Every producer is carried, current or closed, and only one of these. */
  ghost predicate ProducerInv(s: State) {
    && s.discarded == {}
    && s.created == Carried(s) + Current(s) + s.closed
    && Carried(s) !! Current(s) && (Carried(s) + Current(s)) !! s.closed
  }

  /** Every attempt after a failed one starts at least the back-off later. */
  ghost predicate Spaced(attempts: seq<Attempt>, backoff: real) {
    forall i, j :: 0 <= i < j < |attempts| && attempts[i].outcome.Failed? ==>
      attempts[j].start >= attempts[i].outcome.at + backoff
  }

  /** The last attempt is open exactly while a thread is in flight; a failure ends
      no earlier than it starts, and the deadline respects every failure. */
  ghost predicate AttemptInv(s: State) {
    && (forall i :: 0 <= i < |s.attempts| && s.attempts[i].outcome.Open? ==> i == |s.attempts| - 1)
    && (s.inFlight != map[] ==> s.attempts != [] && s.attempts[|s.attempts| - 1].outcome.Open?)
    && (s.inFlight == map[] ==> forall i :: 0 <= i < |s.attempts| ==> !s.attempts[i].outcome.Open?)
    && (forall i :: 0 <= i < |s.attempts| ==> s.attempts[i].start <= s.now)
    && (forall i :: 0 <= i < |s.attempts| && s.attempts[i].outcome.Failed? ==>
          s.attempts[i].start <= s.attempts[i].outcome.at <= s.now
          && s.attempts[i].outcome.at + s.sh.backoff <= s.sh.nextAttempt)
    && Spaced(s.attempts, s.sh.backoff)
  }

  ghost predicate Inv(s: State) {
    s.sh.backoff >= 0.0 && FlagInv(s) && ProducerInv(s) && AttemptInv(s)
  }

  lemma SettleFacts(attempts: seq<Attempt>, o: Outcome)
    requires attempts != []
    ensures var r := Settle(attempts, o);
      && |r| == |attempts|
      && (forall i :: 0 <= i < |r| - 1 ==> r[i] == attempts[i])
      && r[|r| - 1] == Attempt(attempts[|r| - 1].start, o)
  {}

  lemma StepKeepsFlag(s: State, a: Action)
    requires Inv(s) && Enabled(s, a)
    ensures FlagInv(Do(s, a))
  {
    var s' := Do(s, a);
    match a
    case Tick(_) | Close =>
      assert WasAborted(s') <==> WasAborted(s);
    case Enter(t) =>
      assert forall i :: 0 <= i < |s.attempts| ==> s'.attempts[i] == s.attempts[i];
      if Decide(s.sh, s.now).Connect? {
        assert t in s'.inFlight;
      }
    case ConnectReturns(t, _) =>
      assert t in s.inFlight && t in s'.inFlight;
      assert WasAborted(s') <==> WasAborted(s);
    case ConnectRaises(t) =>
      assert t in s.inFlight && t in s'.inFlight;
      assert WasAborted(s') <==> WasAborted(s);
    case ConnectAborts(t) =>
      assert t in s.inFlight;
      SettleFacts(s.attempts, Aborted);
      assert s'.attempts[|s'.attempts| - 1].outcome.Aborted?;
      assert s'.inFlight == map[];
    case Fail(t) =>
      assert t in s.inFlight;
      SettleFacts(s.attempts, Failed(s.now));
      assert s'.inFlight == map[];
      assert !WasAborted(s) && !WasAborted(s');
    case Install(t) =>
      assert t in s.inFlight;
      SettleFacts(s.attempts, Succeeded);
      assert s'.inFlight == map[];
      assert !WasAborted(s) && !WasAborted(s');
  }

  lemma StepKeepsProducers(s: State, a: Action)
    requires Inv(s) && Enabled(s, a)
    ensures ProducerInv(Do(s, a))
  {
    var s' := Do(s, a);
    match a
    case Tick(_) | Close => assert Carried(s') == Carried(s);
    case Enter(t) =>
      assert forall u :: u in s.inFlight ==> s'.inFlight[u] == s.inFlight[u];
      assert Carried(s') == Carried(s);
    case ConnectReturns(t, p) =>
      assert s'.inFlight[t] == Constructed(p);
      assert Carried(s) == {} && Carried(s') == {p};
    case ConnectRaises(t) =>
      assert s'.inFlight[t] == Raised;
      assert Carried(s') == {} == Carried(s);
    case ConnectAborts(t) =>
      assert Carried(s') == {} == Carried(s);
    case Fail(t) =>
      assert Carried(s') == {} == Carried(s);
    case Install(t) =>
      assert t in s.inFlight;
      assert Carried(s') == {} && Carried(s) == {s.inFlight[t].producer};
  }

  lemma SettleKeepsAttempts(s: State, s': State, o: Outcome)
    requires s.sh.backoff >= 0.0 && AttemptInv(s) && s.inFlight != map[] && s'.inFlight == map[]
    requires s'.attempts == Settle(s.attempts, o) && !o.Open?
    requires s'.now == s.now && s'.sh.backoff == s.sh.backoff
    requires if o.Failed? then o.at == s.now && s'.sh.nextAttempt == s.now + s.sh.backoff
             else s'.sh.nextAttempt == s.sh.nextAttempt
    ensures AttemptInv(s')
  {
    SettleFacts(s.attempts, o);
  }

  lemma EnterKeepsAttempts(s: State, t: nat)
    requires Inv(s) && Enabled(s, Enter(t)) && Decide(s.sh, s.now).Connect?
    ensures AttemptInv(Do(s, Enter(t)))
  {
    var s' := Do(s, Enter(t));
    assert t in s'.inFlight;
    assert forall i :: 0 <= i < |s.attempts| ==> s'.attempts[i] == s.attempts[i];
  }

  lemma OnlyThread(s: State, t: nat)
    requires AtMostOneInFlight(s) && t in s.inFlight
    ensures s.inFlight != map[] && s.inFlight - {t} == map[]
  {}

  lemma StepKeepsAttempts(s: State, a: Action)
    requires Inv(s) && Enabled(s, a)
    ensures AttemptInv(Do(s, a))
  {
    var s' := Do(s, a);
    match a
    case Tick(_) =>
    case Close =>
    case Enter(t) =>
      if Decide(s.sh, s.now).Connect? { EnterKeepsAttempts(s, t); }
    case ConnectReturns(t, _) => assert t in s'.inFlight && t in s.inFlight;
    case ConnectRaises(t) => assert t in s'.inFlight && t in s.inFlight;
    case ConnectAborts(t) =>
      OnlyThread(s, t);
      SettleKeepsAttempts(s, s', Aborted);
    case Fail(t) =>
      OnlyThread(s, t);
      SettleKeepsAttempts(s, s', Failed(s.now));
    case Install(t) =>
      OnlyThread(s, t);
      SettleKeepsAttempts(s, s', Succeeded);
  }

  lemma {:induction false} RunKeepsInv(s: State, run: seq<Action>)
    requires Inv(s) && Legal(s, run)
    ensures Inv(Exec(s, run)) && Exec(s, run).sh.backoff == s.sh.backoff
    decreases run
  {
    if run != [] {
      StepKeepsFlag(s, run[0]);
      StepKeepsProducers(s, run[0]);
      StepKeepsAttempts(s, run[0]);
      RunKeepsInv(Do(s, run[0]), run[1..]);
    }
  }

  // ---------- main results ----------

  /** At most one thread connects; `_connecting` excludes a producer, and is set
      exactly while a thread connects, unless a constructor aborted. */
  lemma OneConnectorAtATime(enabled: bool, backoff: real, t0: real, run: seq<Action>)
    requires backoff >= 0.0 && Legal(Init(enabled, backoff, t0), run)
    ensures var s := Exec(Init(enabled, backoff, t0), run);
      && AtMostOneInFlight(s)
      && (s.sh.connecting ==> s.sh.producer.None?)
      && (s.sh.connecting <==> s.inFlight != map[] || WasAborted(s))
  {
    RunKeepsInv(Init(enabled, backoff, t0), run);
  }

  lemma CarriedIsSmall(s: State)
    requires AtMostOneInFlight(s)
    ensures |Carried(s)| <= 1
  {
    if p :| p in Carried(s) { assert Carried(s) == {p}; }
  }

  /** Conservation: every producer created is about to be installed, installed, or
      handed to `close()`; none is discarded, and at most one is not closed. */
  lemma NoProducerIsLost(enabled: bool, backoff: real, t0: real, run: seq<Action>)
    requires backoff >= 0.0 && Legal(Init(enabled, backoff, t0), run)
    ensures var s := Exec(Init(enabled, backoff, t0), run);
      && s.discarded == {}
      && s.created == Carried(s) + Current(s) + s.closed
      && |s.created - s.closed| <= 1
  {
    RunKeepsInv(Init(enabled, backoff, t0), run);
    var s := Exec(Init(enabled, backoff, t0), run);
    var open := s.created - s.closed;
    assert open == Carried(s) + Current(s);
    if s.sh.producer.Some? {
      assert Carried(s) == {};
      assert open == {s.sh.producer.value};
    } else {
      CarriedIsSmall(s);
    }
  }

  lemma {:induction false} AttemptsOnlyGrow(s: State, run: seq<Action>)
    requires Legal(s, run)
    ensures |Exec(s, run).attempts| >= |s.attempts|
    decreases run
  {
    if run != [] { AttemptsOnlyGrow(Do(s, run[0]), run[1..]); }
  }

  /** No thread in flight holds a producer or can still get one. */
  ghost predicate AllRaised(s: State) {
    forall t :: t in s.inFlight ==> s.inFlight[t].Raised?
  }

  /** Without a producer, and with no thread in flight but those whose constructor
      raised, nothing opens until an attempt starts. */
  lemma {:induction false} NothingOpensByItself(s: State, run: seq<Action>)
    requires Inv(s) && Legal(s, run) && s.sh.producer.None? && AllRaised(s)
    requires |Exec(s, run).attempts| == |s.attempts|
    ensures Exec(s, run).created == Exec(s, run).closed
    decreases run
  {
    if run == [] {
      assert Carried(s) == {};
    } else {
      var s' := Do(s, run[0]);
      StepKeepsFlag(s, run[0]);
      StepKeepsProducers(s, run[0]);
      StepKeepsAttempts(s, run[0]);
      AttemptsOnlyGrow(s', run[1..]);
      NothingOpensByItself(s', run[1..]);
    }
  }

  /** Nothing stays open, or is opened later, unless another attempt starts. */
  ghost predicate StaysClosed(s: State) {
    forall rest :: Legal(s, rest) && |Exec(s, rest).attempts| == |s.attempts| ==>
      Exec(s, rest).created == Exec(s, rest).closed
  }

  lemma FreshProducer(created: set<nat>) returns (p: nat)
    ensures p !in created
  {
    p := 0;
    ghost var left := created;
    while p in left
      invariant left <= created
      invariant forall q :: q in created && q !in left ==> q < p
      decreases left
    {
      left := left - {p};
      p := p + 1;
    }
  }

  /** A thread that is constructing can return a producer, which nobody has closed. */
  lemma ConstructingOpens(s: State, t: nat)
    requires t in s.inFlight && s.inFlight[t].Constructing?
    requires s.closed <= s.created
    ensures !StaysClosed(s)
  {
    var p := FreshProducer(s.created);
    var rest := [ConnectReturns(t, p)];
    var s' := Do(s, rest[0]);
    assert rest[1..] == [] && Legal(s', []);
    assert Legal(s, rest) && Exec(s, rest) == Exec(s', []) == s';
    assert p in s'.created && p !in s'.closed;
  }

  /** A producer that a thread holds is open as it is. */
  lemma ConstructedIsOpen(s: State, t: nat)
    requires ProducerInv(s) && t in s.inFlight && s.inFlight[t].Constructed?
    ensures !StaysClosed(s)
  {
    assert s.inFlight[t].producer in Carried(s);
    assert Legal(s, []) && Exec(s, []) == s;
  }

  /**
   A `close()` is final, that is, leaves every producer closed for as long as no later
   publication connects, if and only if the constructor of every thread in flight has
   already raised.
   */
  lemma CloseIsFinalIff(enabled: bool, backoff: real, t0: real, run: seq<Action>)
    requires backoff >= 0.0 && Legal(Init(enabled, backoff, t0), run)
    ensures var s := Exec(Init(enabled, backoff, t0), run); StaysClosed(Do(s, Close)) <==> AllRaised(s)
  {
    var s := Exec(Init(enabled, backoff, t0), run);
    RunKeepsInv(Init(enabled, backoff, t0), run);
    var c := Do(s, Close);
    StepKeepsFlag(s, Close);
    StepKeepsProducers(s, Close);
    StepKeepsAttempts(s, Close);
    if AllRaised(s) {
      forall rest | Legal(c, rest) && |Exec(c, rest).attempts| == |c.attempts|
        ensures Exec(c, rest).created == Exec(c, rest).closed
      {
        NothingOpensByItself(c, rest);
      }
    } else {
      var t :| t in s.inFlight && !s.inFlight[t].Raised?;
      if s.inFlight[t].Constructing? { ConstructingOpens(c, t); } else { ConstructedIsOpen(c, t); }
    }
  }

  /** A `close()` during a construction is not: the producer installed afterwards stays
      open. */
  lemma CloseWhileConnecting(backoff: real, t0: real, p: nat) returns (run: seq<Action>)
    requires backoff >= 0.0 && t0 >= 0.0
    ensures Legal(Init(true, backoff, t0), run) && Close in run && run[|run| - 1] == Install(0)
    ensures var s := Exec(Init(true, backoff, t0), run);
      s.created == {p} && s.closed == {} && s.sh.producer == Some(p) && s.inFlight == map[]
  {
    run := [Enter(0), Close, ConnectReturns(0, p), Install(0)];
    var s1 := Do(Init(true, backoff, t0), Enter(0));
    var s2 := Do(s1, Close);
    var s3 := Do(s2, ConnectReturns(0, p));
    var s4 := Do(s3, Install(0));
    assert run[1] == Close && s1.inFlight == map[0 := Constructing] && s4.inFlight == map[];
    assert run[1..] == [Close, ConnectReturns(0, p), Install(0)];
    assert run[1..][1..] == [ConnectReturns(0, p), Install(0)];
    assert run[1..][1..][1..] == [Install(0)] && run[1..][1..][1..][1..] == [];
    assert Exec(s3, [Install(0)]) == Exec(s4, []) == s4 && Legal(s4, []) && Legal(s3, [Install(0)]);
    assert Exec(s2, run[1..][1..]) == s4 && Legal(s2, run[1..][1..]);
    assert Exec(s1, run[1..]) == s4 && Legal(s1, run[1..]);
  }

  /** Any attempt after a failed one, with whatever successes and closes in
      between, starts at least the back-off after the failure. */
  lemma AttemptsRespectBackoff(enabled: bool, backoff: real, t0: real, run: seq<Action>, i: nat, j: nat)
    requires backoff >= 0.0 && Legal(Init(enabled, backoff, t0), run)
    requires i < j < |Exec(Init(enabled, backoff, t0), run).attempts|
    requires Exec(Init(enabled, backoff, t0), run).attempts[i].outcome.Failed?
    ensures var a := Exec(Init(enabled, backoff, t0), run).attempts;
      a[j].start >= a[i].outcome.at + backoff >= a[i].start + backoff
  {
    RunKeepsInv(Init(enabled, backoff, t0), run);
  }

  ghost predicate FailedAt(attempts: seq<Attempt>, time: real) {
    exists i :: 0 <= i < |attempts| && attempts[i].outcome == Failed(time)
  }

  /** The deadline is no later than the failures ask for. */
  ghost predicate DeadlineInv(s: State) {
    && s.now >= 0.0
    && (s.sh.nextAttempt == 0.0 || FailedAt(s.attempts, s.sh.nextAttempt - s.sh.backoff))
  }

  lemma SettleKeepsFailure(attempts: seq<Attempt>, o: Outcome, time: real)
    requires FailedAt(attempts, time) && attempts[|attempts| - 1].outcome.Open?
    ensures FailedAt(Settle(attempts, o), time)
  {
    var i :| 0 <= i < |attempts| && attempts[i].outcome == Failed(time);
    assert Settle(attempts, o)[i].outcome == Failed(time);
  }

  lemma NextKeepsFailure(attempts: seq<Attempt>, a: Attempt, time: real)
    requires FailedAt(attempts, time)
    ensures FailedAt(attempts + [a], time)
  {
    var i :| 0 <= i < |attempts| && attempts[i].outcome == Failed(time);
    assert (attempts + [a])[i].outcome == Failed(time);
  }

  lemma StepKeepsDeadline(s: State, a: Action)
    requires Inv(s) && DeadlineInv(s) && Enabled(s, a)
    ensures DeadlineInv(Do(s, a)) && Do(s, a).sh.enabled == s.sh.enabled && Do(s, a).sh.backoff == s.sh.backoff
  {
    if a.Fail? {
      OnlyThread(s, a.thread);
      var settled := Settle(s.attempts, Failed(s.now));
      assert settled[|settled| - 1].outcome == Failed(s.now);
    } else if s.sh.nextAttempt != 0.0 {
      var time := s.sh.nextAttempt - s.sh.backoff;
      if a.Install? || a.ConnectAborts? {
        OnlyThread(s, a.thread);
        SettleKeepsFailure(s.attempts, if a.Install? then Succeeded else Aborted, time);
      }
      NextKeepsFailure(s.attempts, Attempt(s.now, Open), time);
    }
  }

  lemma {:induction false} RunKeepsDeadline(s: State, run: seq<Action>)
    requires Inv(s) && DeadlineInv(s) && Legal(s, run)
    ensures Inv(Exec(s, run)) && DeadlineInv(Exec(s, run))
    ensures Exec(s, run).sh.enabled == s.sh.enabled && Exec(s, run).sh.backoff == s.sh.backoff
    decreases run
  {
    if run != [] {
      StepKeepsFlag(s, run[0]);
      StepKeepsProducers(s, run[0]);
      StepKeepsAttempts(s, run[0]);
      StepKeepsDeadline(s, run[0]);
      RunKeepsDeadline(Do(s, run[0]), run[1..]);
    }
  }

  /** The back-off has passed since every failed attempt. */
  ghost predicate Due(s: State) {
    forall i :: 0 <= i < |s.attempts| && s.attempts[i].outcome.Failed? ==>
      s.attempts[i].outcome.at + s.sh.backoff <= s.now
  }

  /** Exactly when a publication starts to connect: without a producer, with no
      other thread connecting, no constructor ever aborted, and the back-off over. */
  lemma ConnectsExactlyWhenDue(enabled: bool, backoff: real, t0: real, run: seq<Action>, t: nat)
    requires backoff >= 0.0 && t0 >= 0.0 && Legal(Init(enabled, backoff, t0), run)
    requires Enabled(Exec(Init(enabled, backoff, t0), run), Enter(t))
    ensures var s := Exec(Init(enabled, backoff, t0), run);
      t in Do(s, Enter(t)).inFlight <==>
        enabled && s.sh.producer.None? && s.inFlight == map[] && !WasAborted(s) && Due(s)
  {
    RunKeepsDeadline(Init(enabled, backoff, t0), run);
  }

  /** A producer that is installed: created, not closed, and held by no thread in flight. */
  ghost predicate Installed(s: State, p: nat) {
    p in s.created && p !in s.closed && p !in Carried(s)
  }

  /** A new connection is due. */
  ghost predicate ConnectionDue(s: State) {
    s.inFlight == map[] && !WasAborted(s) && Due(s)
  }

  /**
   What a publication does after any run: with Kafka enabled it sends on the installed
   producer; without one it connects if that is due; otherwise it skips.
   */
  lemma PublicationDecides(enabled: bool, backoff: real, t0: real, run: seq<Action>, p: nat)
    requires backoff >= 0.0 && t0 >= 0.0 && Legal(Init(enabled, backoff, t0), run)
    ensures var s := Exec(Init(enabled, backoff, t0), run);
      var d, idle := Decide(s.sh, s.now), forall q :: !Installed(s, q);
      && (d == Use(p) <==> enabled && Installed(s, p))
      && (d == Connect <==> enabled && idle && ConnectionDue(s))
      && (d == Skip <==> !enabled || (idle && !ConnectionDue(s)))
  {
    RunKeepsDeadline(Init(enabled, backoff, t0), run);
    var s := Exec(Init(enabled, backoff, t0), run);
    assert forall q :: Installed(s, q) <==> q in Current(s);
  }

  lemma TwoSteps(s: State, a: Action, b: Action)
    requires Enabled(s, a) && Enabled(Do(s, a), b)
    ensures Legal(s, [a, b]) && Exec(s, [a, b]) == Do(Do(s, a), b)
  {
    var s1 := Do(s, a);
    var s2 := Do(s1, b);
    assert [a, b][1..] == [b] && [b][1..] == [];
    assert Exec(s2, []) == s2;
    assert Legal(s1, [b]) && Exec(s1, [b]) == s2;
  }

  /** In every reachable state a thread that is constructing can succeed with any new
      producer, on which every publication then sends until it is closed ... */
  lemma ConnectionCanSucceed(enabled: bool, backoff: real, t0: real, run: seq<Action>, t: nat, p: nat)
    requires backoff >= 0.0 && Legal(Init(enabled, backoff, t0), run)
    requires var s := Exec(Init(enabled, backoff, t0), run);
      t in s.inFlight && s.inFlight[t].Constructing? && p !in s.created
    ensures var s, more := Exec(Init(enabled, backoff, t0), run), [ConnectReturns(t, p), Install(t)];
      && Legal(s, more)
      && Exec(s, more).sh == s.sh.(connecting := false, producer := Some(p))
      && Exec(s, more).inFlight == map[] && Exec(s, more).created == s.created + {p}
  {
    RunKeepsInv(Init(enabled, backoff, t0), run);
    var s := Exec(Init(enabled, backoff, t0), run);
    var s' := Do(s, ConnectReturns(t, p));
    TwoSteps(s, ConnectReturns(t, p), Install(t));
    StepKeepsFlag(s, ConnectReturns(t, p));
    OnlyThread(s', t);
  }

  lemma {:induction false} SameSettings(s: State, run: seq<Action>)
    requires Legal(s, run)
    ensures Exec(s, run).sh.enabled == s.sh.enabled && Exec(s, run).sh.backoff == s.sh.backoff
    decreases run
  {
    if run != [] { SameSettings(Do(s, run[0]), run[1..]); }
  }

  /** ... and it can fail; the next publication connects again if and only if the
      back-off is over by then. */
  lemma ConnectionCanFail(enabled: bool, backoff: real, t0: real, run: seq<Action>, t: nat, wait: real, u: nat)
    requires backoff >= 0.0 && wait >= 0.0 && Legal(Init(enabled, backoff, t0), run)
    requires var s := Exec(Init(enabled, backoff, t0), run);
      t in s.inFlight && s.inFlight[t].Constructing?
    ensures var s, more := Exec(Init(enabled, backoff, t0), run), [ConnectRaises(t), Fail(t)];
      && Legal(s, more) && Exec(s, more).inFlight == map[]
      && Exec(s, more).created == s.created
      && Legal(Exec(s, more), [Tick(wait), Enter(u)])
      && (u in Exec(Exec(s, more), [Tick(wait), Enter(u)]).inFlight <==> enabled && wait >= backoff)
  {
    RunKeepsInv(Init(enabled, backoff, t0), run);
    SameSettings(Init(enabled, backoff, t0), run);
    var s := Exec(Init(enabled, backoff, t0), run);
    TwoSteps(s, ConnectRaises(t), Fail(t));
    OnlyThread(s, t);
    var s' := Do(Do(s, ConnectRaises(t)), Fail(t));
    assert s'.inFlight == map[];
    TwoSteps(s', Tick(wait), Enter(u));
  }

  /** Failed attempts that start within [from, to], among the first `n`. */
  function FailedWithin(attempts: seq<Attempt>, from: real, to: real, n: nat): nat
    requires n <= |attempts|
  {
    if n == 0 then 0 else
      FailedWithin(attempts, from, to, n - 1) +
      (if attempts[n - 1].outcome.Failed? && from <= attempts[n - 1].start <= to then 1 else 0)
  }

  /** `n` back-offs, by repeated addition. */
  function Backoffs(n: nat, backoff: real): real {
    if n == 0 then 0.0 else Backoffs(n - 1, backoff) + backoff
  }

  lemma {:induction false} BackoffsIsProduct(n: nat, backoff: real)
    ensures Backoffs(n, backoff) == n as real * backoff
  {
    if n > 0 {
      BackoffsIsProduct(n - 1, backoff);
      var m := (n - 1) as real;
      assert n as real == m + 1.0;
      assert (m + 1.0) * backoff == m * backoff + backoff;
    }
  }

  lemma {:induction false} LastFailureIsLate(attempts: seq<Attempt>, backoff: real, from: real, to: real, n: nat)
    returns (last: nat)
    requires Spaced(attempts, backoff) && n <= |attempts| && FailedWithin(attempts, from, to, n) >= 1
    requires forall i :: 0 <= i < |attempts| && attempts[i].outcome.Failed? ==>
               attempts[i].start <= attempts[i].outcome.at
    ensures last < n && attempts[last].outcome.Failed? && from <= attempts[last].start <= to
    ensures attempts[last].start >= from + Backoffs(FailedWithin(attempts, from, to, n) - 1, backoff)
    decreases n
  {
    var k := FailedWithin(attempts, from, to, n - 1);
    if FailedWithin(attempts, from, to, n) == k {
      last := LastFailureIsLate(attempts, backoff, from, to, n - 1);
    } else if k == 0 {
      last := n - 1;
    } else {
      var previous := LastFailureIsLate(attempts, backoff, from, to, n - 1);
      last := n - 1;
      assert attempts[last].start >= attempts[previous].outcome.at + backoff;
    }
  }

  lemma QuotientBound(x: real, length: real, backoff: real)
    requires backoff > 0.0 && x * backoff <= length
    ensures x <= length / backoff
  {}

  lemma BackoffsFit(n: nat, length: real, backoff: real)
    requires backoff > 0.0 && Backoffs(n, backoff) <= length
    ensures n as real <= length / backoff
  {
    BackoffsIsProduct(n, backoff);
    QuotientBound(n as real, length, backoff);
  }

  lemma SpacedFailuresFit(attempts: seq<Attempt>, backoff: real, from: real, to: real)
    requires backoff > 0.0 && from <= to && Spaced(attempts, backoff)
    requires forall i :: 0 <= i < |attempts| && attempts[i].outcome.Failed? ==>
               attempts[i].start <= attempts[i].outcome.at
    ensures FailedWithin(attempts, from, to, |attempts|) as real <= 1.0 + (to - from) / backoff
  {
    var n := FailedWithin(attempts, from, to, |attempts|);
    if n >= 1 {
      var last := LastFailureIsLate(attempts, backoff, from, to, |attempts|);
      BackoffsFit(n - 1, to - from, backoff);
    } else {
      BackoffsFit(0, to - from, backoff);
    }
  }

  /** However many events are published, a window of length T holds at most
      1 + T / backoff failed connection attempts. */
  lemma FailuresPerWindow(enabled: bool, backoff: real, t0: real, run: seq<Action>, from: real, to: real)
    requires backoff > 0.0 && Legal(Init(enabled, backoff, t0), run) && from <= to
    ensures var a := Exec(Init(enabled, backoff, t0), run).attempts;
      FailedWithin(a, from, to, |a|) as real <= 1.0 + (to - from) / backoff
  {
    RunKeepsInv(Init(enabled, backoff, t0), run);
    SpacedFailuresFit(Exec(Init(enabled, backoff, t0), run).attempts, backoff, from, to);
  }

  /** Two steps are enough: a publication, and a constructor that escapes. */
  lemma ConstructorCanAbort(backoff: real, t0: real) returns (run: seq<Action>)
    requires backoff >= 0.0 && t0 >= 0.0
    ensures Legal(Init(true, backoff, t0), run) && WasAborted(Exec(Init(true, backoff, t0), run))
    ensures Exec(Init(true, backoff, t0), run).sh.connecting && Exec(Init(true, backoff, t0), run).inFlight == map[]
  {
    var s0 := Init(true, backoff, t0);
    run := [Enter(0), ConnectAborts(0)];
    var s1 := Do(s0, run[0]);
    var s2 := Do(s1, run[1]);
    assert run[1..][1..] == [] && run[1..][0] == run[1];
    assert s1.inFlight == map[0 := Constructing];
    assert Exec(s0, run) == Exec(s1, run[1..]) == Exec(s2, []) == s2;
    assert s2.attempts[0].outcome.Aborted? && s2.inFlight == map[];
  }

  /** Once a constructor aborts, no run ever attempts to connect again. */
  lemma {:induction false} AbortIsFinal(s: State, run: seq<Action>)
    requires Inv(s) && WasAborted(s) && Legal(s, run)
    ensures Exec(s, run).attempts == s.attempts
    decreases run
  {
    if run != [] {
      var s' := Do(s, run[0]);
      StepKeepsFlag(s, run[0]);
      StepKeepsProducers(s, run[0]);
      StepKeepsAttempts(s, run[0]);
      assert s'.attempts == s.attempts;
      AbortIsFinal(s', run[1..]);
    }
  }
}
