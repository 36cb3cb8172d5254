/**
 The bulkhead and timeout of ResiliencePolicy.call (contexts/ai/resilience.py,
 lines 96-139) as a protocol of atomic steps.

 A step belongs to one call and is taken by its caller or by its worker; a run
 interleaves the steps of any number of calls in any order. The number of times
 `release_slot` is entered is counted, not assumed.
 */
module Bulkhead {

  /** What the caller of a submitted operation gets: its result or exception,
      CallTimedOut, or another exception. */
  datatype Outcome = Result | TimeOut | Other

  /** Where the caller is in `call`. */
  datatype Caller =
    | Arrived                 // before `_take_token`
    | Refused(byRate: bool)   // left with RateLimitExceeded or BulkheadRejected
    | Acquired                // holds a permit
    | Counted                 // has incremented `_active_workers`
    | SubmitFailed            // `submit` raised
    | Submitted               // has a future, no callback registered yet
    | Waiting                 // inside `future.result(timeout)`
    | TimedOut                // about to call `future.cancel()`
    | Leaving(with: Outcome)  // about to run the `finally` clause
    | Left(with: Outcome)

  datatype Future = Unsubmitted | Pending | Running | Finished | Cancelled

  /** `entered`, `countedOut` and `released` count how often release_slot was
      entered, decremented `_active_workers` and returned the permit; `started`
      counts how often the operation began to run. */
  datatype Call = Call(caller: Caller, future: Future, registered: bool,
                       entered: nat, countedOut: nat, released: nat, started: nat)

  datatype State = State(limit: nat, permits: int, active: int, calls: map<nat, Call>)

  datatype Action =
    | TokenRefused      // `_take_token` raises
    | TryAcquire        // non-blocking acquire of the semaphore
    | CountIn           // `_active_workers += 1`
    | Submit
    | SubmitRaises      // `submit` raises; the caller enters release_slot itself
    | Register          // `add_done_callback(release_slot)`
    | WorkerStarts      // the worker takes the work item
    | WorkerFinishes    // the operation returns or raises
    | ResultReady       // `future.result` returns or re-raises
    | TimesOut          // `future.result` raises TimeoutError
    | Interrupted       // any other exception reaches `finally`
    | CancelFuture      // `future.cancel()`
    | Shutdown(drained: bool)  // `executor.shutdown`; `drained` if the item was still queued
    | CountOut          // `_active_workers -= 1` in release_slot
    | ReleasePermit     // `self._bulkhead.release()` in release_slot

  predicate Done(f: Future) { f.Finished? || f.Cancelled? }

  /** Whether a call may take a step. Releasing steps need only an unfinished
      entry of release_slot; nothing says that there is at most one. */
  predicate Ready(c: Call, a: Action) {
    match a
    case TokenRefused | TryAcquire => c.caller.Arrived?
    case CountIn => c.caller.Acquired?
    case Submit | SubmitRaises => c.caller.Counted?
    case Register => c.caller.Submitted?
    case WorkerStarts => c.future.Pending?
    case WorkerFinishes => c.future.Running?
    case ResultReady => c.caller.Waiting? && c.future.Finished?
    case TimesOut | Interrupted => c.caller.Waiting?
    case CancelFuture => c.caller.TimedOut?
    case Shutdown(_) => c.caller.Leaving?
    case CountOut => c.countedOut < c.entered
    case ReleasePermit => c.released < c.countedOut
  }

  /** A done future runs its callback once: when it becomes done if the callback
      is registered by then, otherwise on registration. */
  function Cancel(c: Call): Call {
    if c.future.Pending? then
      c.(future := Cancelled, entered := c.entered + if c.registered then 1 else 0)
    else c
  }

  function Advance(c: Call, a: Action, granted: bool): Call
    requires Ready(c, a)
  {
    match a
    case TokenRefused => c.(caller := Refused(true))
    case TryAcquire => c.(caller := if granted then Acquired else Refused(false))
    case CountIn => c.(caller := Counted)
    case Submit => c.(caller := Submitted, future := Pending)
    case SubmitRaises => c.(caller := SubmitFailed, entered := c.entered + 1)
    case Register =>
      if Done(c.future) then c.(caller := Waiting, entered := c.entered + 1)
      else c.(caller := Waiting, registered := true)
    case WorkerStarts => c.(future := Running, started := c.started + 1)
    case WorkerFinishes => c.(future := Finished, entered := c.entered + if c.registered then 1 else 0)
    case ResultReady => c.(caller := Leaving(Result))
    case Interrupted => c.(caller := Leaving(Other))
    case TimesOut => c.(caller := TimedOut)
    case CancelFuture => Cancel(c).(caller := Leaving(TimeOut))
    case Shutdown(drained) => (if drained then Cancel(c) else c).(caller := Left(c.caller.with))
    case CountOut => c.(countedOut := c.countedOut + 1)
    case ReleasePermit => c.(released := c.released + 1)
  }

  const FRESH := Call(Arrived, Unsubmitted, false, 0, 0, 0, 0)

  datatype Step = Arrive(id: nat) | Act(id: nat, action: Action)

  predicate Enabled(s: State, step: Step) {
    match step
    case Arrive(id) => id !in s.calls
    case Act(id, a) => id in s.calls && Ready(s.calls[id], a)
  }

  function Do(s: State, step: Step): State
    requires Enabled(s, step)
  {
    match step
    case Arrive(id) => s.(calls := s.calls[id := FRESH])
    case Act(id, a) =>
      var granted := s.permits > 0;
      State(s.limit,
            s.permits + (if a.TryAcquire? && granted then -1 else if a.ReleasePermit? then 1 else 0),
            s.active + (if a.CountIn? then 1 else if a.CountOut? then -1 else 0),
            s.calls[id := Advance(s.calls[id], a, granted)])
  }

  function Init(limit: nat): State { State(limit, limit, 0, map[]) }

  predicate Legal(s: State, steps: seq<Step>)
    decreases steps
  {
    steps == [] || (Enabled(s, steps[0]) && Legal(Do(s, steps[0]), steps[1..]))
  }

  function Exec(s: State, steps: seq<Step>): State
    requires Legal(s, steps)
    decreases steps
  {
    if steps == [] then s else Exec(Do(s, steps[0]), steps[1..])
  }

  // ---------- what is true of every reachable state ----------

  predicate Holds(c: Call) { !c.caller.Arrived? && !c.caller.Refused? && c.released == 0 }

  predicate IsCounted(c: Call) { Holds(c) && !c.caller.Acquired? && c.countedOut == 0 }

  function Held(s: State): set<nat> { set id | id in s.calls && Holds(s.calls[id]) }

  function CountedIn(s: State): set<nat> { set id | id in s.calls && IsCounted(s.calls[id]) }

  /** Operations still executing, whether or not their caller is still there. */
  function Executing(s: State): set<nat> { set id | id in s.calls && s.calls[id].future.Running? }

  predicate BeforeSubmission(k: Caller) {
    k.Arrived? || k.Refused? || k.Acquired? || k.Counted? || k.SubmitFailed?
  }

  predicate AfterRegistration(k: Caller) { k.Waiting? || k.TimedOut? || k.Leaving? || k.Left? }

  /** The caller leaves, or has left, a submitted operation in this way. */
  predicate Leaves(k: Caller, o: Outcome) { k == Leaving(o) || k == Left(o) }

  /** The local shape of one call. */
  predicate CallInv(c: Call) {
    && c.released <= c.countedOut <= c.entered <= 1
    && c.started == (if c.future.Running? || c.future.Finished? then 1 else 0)
    && (c.future.Unsubmitted? <==> BeforeSubmission(c.caller))
    && (c.registered ==> AfterRegistration(c.caller))
    && (c.entered == 1 <==>
        c.caller.SubmitFailed? || (Done(c.future) && AfterRegistration(c.caller)))
    && (AfterRegistration(c.caller) && !Done(c.future) ==> c.registered)
    && (Leaves(c.caller, Result) ==> c.future.Finished?)
    && (Leaves(c.caller, TimeOut) ==> !c.future.Pending?)
    && (c.future.Cancelled? ==>
          c.registered && (Leaves(c.caller, TimeOut) || c.caller == Left(Other)))
  }

  ghost predicate CallsInv(calls: map<nat, Call>) {
    forall id :: id in calls ==> CallInv(calls[id])
  }

  ghost predicate SlotsInv(s: State) {
    && s.permits >= 0
    && s.permits + |Held(s)| == s.limit
    && s.active == |CountedIn(s)|
  }

  ghost predicate Inv(s: State) { CallsInv(s.calls) && SlotsInv(s) }

  lemma StepKeepsShape(c: Call, a: Action, granted: bool)
    requires CallInv(c) && Ready(c, a)
    ensures CallInv(Advance(c, a, granted))
  {
    if a.Shutdown? { assert c.caller.with.Result? || c.caller.with.TimeOut? || c.caller.with.Other?; }
  }

  /** What a step does to the slot of its call. */
  lemma StepMovesSlot(c: Call, a: Action, granted: bool)
    requires CallInv(c) && Ready(c, a)
    ensures Holds(Advance(c, a, granted)) == ((Holds(c) && !a.ReleasePermit?) || (a.TryAcquire? && granted))
    ensures a.ReleasePermit? ==> Holds(c)
    ensures a.TryAcquire? ==> !Holds(c)
    ensures IsCounted(Advance(c, a, granted)) == ((IsCounted(c) && !a.CountOut?) || a.CountIn?)
    ensures a.CountOut? ==> IsCounted(c)
    ensures a.CountIn? ==> !IsCounted(c)
  {}

  /** `b` is `a`, except that `x` is in it exactly if `there`. */
  ghost predicate Updated(a: set<nat>, b: set<nat>, x: nat, there: bool) {
    forall n :: n in b <==> if n == x then there else n in a
  }

  lemma UpdatedSize(a: set<nat>, b: set<nat>, x: nat, there: bool)
    requires Updated(a, b, x, there)
    ensures |b| == |a| + (if there then 1 else 0) - (if x in a then 1 else 0)
  {
    if (x in a) == there {
      assert b == a;
    } else if there {
      assert b == a + {x};
    } else {
      assert a == b + {x};
    }
  }

  lemma SetsAfterUpdate(s: State, s': State, id: nat, c: Call)
    requires s'.calls == s.calls[id := c]
    ensures Updated(Held(s), Held(s'), id, Holds(c))
    ensures Updated(CountedIn(s), CountedIn(s'), id, IsCounted(c))
  {}

  lemma UpdateKeepsCallsInv(calls: map<nat, Call>, id: nat, c: Call)
    requires CallsInv(calls) && CallInv(c)
    ensures CallsInv(calls[id := c])
  {}

  lemma ArrivalHoldsNothing(s: State, id: nat, c: Call)
    requires id !in s.calls && !Holds(c)
    ensures Held(s.(calls := s.calls[id := c])) == Held(s)
    ensures CountedIn(s.(calls := s.calls[id := c])) == CountedIn(s)
  {
    var s' := s.(calls := s.calls[id := c]);
    SetsAfterUpdate(s, s', id, c);
    assert id !in Held(s) && id !in CountedIn(s);
    assert forall n :: n in Held(s') <==> n in Held(s);
    assert forall n :: n in CountedIn(s') <==> n in CountedIn(s);
  }

  lemma ArriveKeepsInv(s: State, id: nat)
    requires Inv(s) && Enabled(s, Arrive(id))
    ensures Inv(Do(s, Arrive(id)))
  {
    UpdateKeepsCallsInv(s.calls, id, FRESH);
    ArrivalHoldsNothing(s, id, FRESH);
  }

  lemma HeldCount(s: State, id: nat, a: Action, granted: bool, after: set<nat>)
    requires id in s.calls && CallInv(s.calls[id]) && Ready(s.calls[id], a)
    requires Updated(Held(s), after, id, Holds(Advance(s.calls[id], a, granted)))
    ensures |after| == |Held(s)| + (if a.TryAcquire? && granted then 1 else if a.ReleasePermit? then -1 else 0)
  {
    StepMovesSlot(s.calls[id], a, granted);
    UpdatedSize(Held(s), after, id, Holds(Advance(s.calls[id], a, granted)));
    assert id in Held(s) <==> Holds(s.calls[id]);
  }

  lemma CountedCount(s: State, id: nat, a: Action, granted: bool, after: set<nat>)
    requires id in s.calls && CallInv(s.calls[id]) && Ready(s.calls[id], a)
    requires Updated(CountedIn(s), after, id, IsCounted(Advance(s.calls[id], a, granted)))
    ensures |after| == |CountedIn(s)| + (if a.CountIn? then 1 else if a.CountOut? then -1 else 0)
  {
    StepMovesSlot(s.calls[id], a, granted);
    UpdatedSize(CountedIn(s), after, id, IsCounted(Advance(s.calls[id], a, granted)));
    assert id in CountedIn(s) <==> IsCounted(s.calls[id]);
  }

  lemma ActKeepsSlotsInv(s: State, id: nat, a: Action)
    requires SlotsInv(s) && Enabled(s, Act(id, a)) && CallInv(s.calls[id])
    ensures SlotsInv(Do(s, Act(id, a)))
  {
    var s', c' := Do(s, Act(id, a)), Advance(s.calls[id], a, s.permits > 0);
    SetsAfterUpdate(s, s', id, c');
    HeldCount(s, id, a, s.permits > 0, Held(s'));
    CountedCount(s, id, a, s.permits > 0, CountedIn(s'));
  }

  lemma ActKeepsInv(s: State, id: nat, a: Action)
    requires Inv(s) && Enabled(s, Act(id, a))
    ensures Inv(Do(s, Act(id, a)))
  {
    var s' := Do(s, Act(id, a));
    var c, granted := s.calls[id], s.permits > 0;
    var c' := Advance(c, a, granted);
    assert CallsInv(s'.calls) by {
      StepKeepsShape(c, a, granted);
      UpdateKeepsCallsInv(s.calls, id, c');
    }
    assert SlotsInv(s') by {
      ActKeepsSlotsInv(s, id, a);
    }
  }

  lemma StepKeepsInv(s: State, step: Step)
    requires Inv(s) && Enabled(s, step)
    ensures Inv(Do(s, step))
  {
    match step
    case Arrive(id) => ArriveKeepsInv(s, id);
    case Act(id, a) =>
      ActKeepsInv(s, id, a);
  }

  lemma {:induction false} RunKeepsInv(s: State, steps: seq<Step>)
    requires Inv(s) && Legal(s, steps)
    ensures Inv(Exec(s, steps)) && Exec(s, steps).limit == s.limit
    decreases steps
  {
    if steps != [] {
      StepKeepsInv(s, steps[0]);
      RunKeepsInv(Do(s, steps[0]), steps[1..]);
    }
  }

  lemma SubsetSize(a: set<nat>, b: set<nat>)
    requires a <= b
    ensures |a| <= |b|
  {
    assert b == a + (b - a);
  }

  /**
   In every interleaving: free permits and held slots add up to the limit, the
   worker count is the number of counted slots, and the operations still
   executing, abandoned ones included, never exceed the limit.
   */
  lemma SlotsAreConserved(limit: nat, steps: seq<Step>)
    requires Legal(Init(limit), steps)
    ensures var s := Exec(Init(limit), steps);
      && 0 <= s.permits && s.permits + |Held(s)| == limit
      && s.active == |CountedIn(s)| && CountedIn(s) <= Held(s)
      && Executing(s) <= CountedIn(s)
      && |Executing(s)| <= s.active <= |Held(s)| <= limit
  {
    RunKeepsInv(Init(limit), steps);
    var s := Exec(Init(limit), steps);
    SubsetSize(CountedIn(s), Held(s));
    SubsetSize(Executing(s), CountedIn(s));
  }

  /** Each slot is released at most once, in order, an operation starts at most
      once, and a cancelled one never starts. */
  lemma EachSlotReleasedOnce(limit: nat, steps: seq<Step>, id: nat)
    requires Legal(Init(limit), steps) && id in Exec(Init(limit), steps).calls
    ensures var c := Exec(Init(limit), steps).calls[id];
      && c.released <= c.countedOut <= c.entered <= 1
      && (c.released == 1 ==> c.caller.SubmitFailed? || Done(c.future))
      && c.started <= 1 && (c.future.Cancelled? ==> c.started == 0)
  {
    RunKeepsInv(Init(limit), steps);
  }

  lemma HeldSlotIsMissing(s: State, id: nat)
    requires SlotsInv(s) && id in Held(s)
    ensures s.permits < s.limit
  {}

  lemma SlotReturned(s: State, id: nat)
    requires Enabled(s, Act(id, ReleasePermit)) && CallInv(s.calls[id])
    ensures id in Held(s)
    ensures Updated(Held(s), Held(Do(s, Act(id, ReleasePermit))), id, false)
  {
    var c' := Advance(s.calls[id], ReleasePermit, s.permits > 0);
    StepMovesSlot(s.calls[id], ReleasePermit, s.permits > 0);
    SetsAfterUpdate(s, Do(s, Act(id, ReleasePermit)), id, c');
    assert id in Held(s) && !Holds(c');
  }

  /** What returning a permit does. */
  lemma ReleaseFacts(s: State, id: nat)
    requires Inv(s) && Enabled(s, Act(id, ReleasePermit))
    ensures var next := Do(s, Act(id, ReleasePermit));
      && s.permits < s.limit && id in Held(s) && id !in Held(next)
      && next == State(s.limit, s.permits + 1, s.active, next.calls)
  {
    SlotReturned(s, id);
    HeldSlotIsMissing(s, id);
  }

  /** The bounded semaphore never overflows: `release` never raises. */
  lemma ReleaseNeverOverflows(limit: nat, steps: seq<Step>, id: nat)
    requires Legal(Init(limit), steps) && Enabled(Exec(Init(limit), steps), Act(id, ReleasePermit))
    ensures Exec(Init(limit), steps).permits < limit
  {
    RunKeepsInv(Init(limit), steps);
    var s := Exec(Init(limit), steps);
    assert id in Held(s) by { SlotReturned(s, id); }
    HeldSlotIsMissing(s, id);
  }

  /** A call is refused for concurrency exactly when `limit` slots are held. */
  lemma RefusedIffSaturated(limit: nat, steps: seq<Step>, id: nat)
    requires Legal(Init(limit), steps) && Enabled(Exec(Init(limit), steps), Act(id, TryAcquire))
    ensures var s := Exec(Init(limit), steps);
      Do(s, Act(id, TryAcquire)).calls[id].caller == Refused(false) <==> |Held(s)| == limit
  {
    RunKeepsInv(Init(limit), steps);
  }

  // ---------- every run comes to rest with every slot returned ----------

  function CallerRank(c: Caller): nat {
    match c
    case Arrived => 7 case Acquired => 6 case Counted => 5 case Submitted => 4
    case Waiting => 3 case TimedOut => 2 case Leaving(_) => 1
    case Refused(_) | SubmitFailed | Left(_) => 0
  }

  function FutureRank(f: Future): nat {
    match f
    case Unsubmitted => 3 case Pending => 2 case Running => 1 case Finished | Cancelled => 0
  }

  /** Steps this call can still take, at most. */
  function Rank(c: Call): int {
    CallerRank(c.caller) + FutureRank(c.future) + 2 - c.countedOut - c.released
  }

  function StepsOf(steps: seq<Step>, id: nat): nat {
    if steps == [] then 0 else
      (if steps[0].id == id then 1 else 0) + StepsOf(steps[1..], id)
  }

  lemma RankIsSmall(c: Call)
    requires CallInv(c)
    ensures 0 <= Rank(c) <= 12
  {}

  predicate IsWorkerStep(a: Action) { a.WorkerStarts? || a.WorkerFinishes? || a.CountOut? || a.ReleasePermit? }

  lemma WorkerStepLowersRank(c: Call, a: Action, granted: bool)
    requires Ready(c, a) && IsWorkerStep(a)
    ensures Rank(Advance(c, a, granted)) == Rank(c) - 1
  {}

  lemma EarlyStepLowersRank(c: Call, a: Action, granted: bool)
    requires Ready(c, a) && !IsWorkerStep(a) && !AfterRegistration(c.caller)
    requires a.Submit? ==> c.future.Unsubmitted?
    ensures Rank(Advance(c, a, granted)) < Rank(c)
  {}

  lemma LateStepLowersRank(c: Call, a: Action, granted: bool)
    requires Ready(c, a) && !IsWorkerStep(a) && AfterRegistration(c.caller)
    ensures Rank(Advance(c, a, granted)) < Rank(c)
  {}

  lemma StepLowersRank(c: Call, a: Action, granted: bool)
    requires CallInv(c) && Ready(c, a)
    ensures 0 <= Rank(Advance(c, a, granted)) < Rank(c) <= 12
  {
    StepKeepsShape(c, a, granted);
    RankIsSmall(c);
    RankIsSmall(Advance(c, a, granted));
    if IsWorkerStep(a) {
      WorkerStepLowersRank(c, a, granted);
    } else if AfterRegistration(c.caller) {
      LateStepLowersRank(c, a, granted);
    } else {
      EarlyStepLowersRank(c, a, granted);
    }
  }

  lemma {:induction false} StepsBoundedByRank(s: State, steps: seq<Step>, id: nat)
    requires Inv(s) && Legal(s, steps)
    ensures StepsOf(steps, id) <= if id in s.calls then Rank(s.calls[id]) else 13
    ensures id in s.calls ==> Rank(s.calls[id]) >= 0
    decreases steps
  {
    if steps != [] {
      var s' := Do(s, steps[0]);
      StepKeepsInv(s, steps[0]);
      StepsBoundedByRank(s', steps[1..], id);
      match steps[0]
      case Arrive(_) =>
      case Act(n, a) => StepLowersRank(s.calls[n], a, s.permits > 0);
    }
  }

  /** In no interleaving does a call take more than thirteen steps. */
  lemma CallsAreBounded(limit: nat, steps: seq<Step>, id: nat)
    requires Legal(Init(limit), steps)
    ensures StepsOf(steps, id) <= 13
  {
    assert Held(Init(limit)) == {} && CountedIn(Init(limit)) == {};
    StepsBoundedByRank(Init(limit), steps, id);
  }

  ghost predicate AtRest(s: State) {
    forall id, a :: id in s.calls ==> !Enabled(s, Act(id, a))
  }

  lemma RestingCallHoldsNothing(c: Call)
    requires CallInv(c) && forall a :: !Ready(c, a)
    ensures !Holds(c)
    ensures c.caller.Refused? || c.released == 1
  {
    assert !Ready(c, TryAcquire) && !Ready(c, CountIn) && !Ready(c, Submit) && !Ready(c, Register);
    assert !Ready(c, TimesOut) && !Ready(c, CancelFuture) && !Ready(c, Shutdown(true));
    assert !Ready(c, WorkerStarts) && !Ready(c, WorkerFinishes) && !Ready(c, CountOut) && !Ready(c, ReleasePermit);
  }

  /**
   Whatever mixture of results, failures, time-outs, cancellations and refused
   submissions a run went through, once no call can take a step every acquired
   slot has been released exactly once and the policy is as new.
   */
  lemma RestReturnsEverySlot(limit: nat, steps: seq<Step>)
    requires Legal(Init(limit), steps) && AtRest(Exec(Init(limit), steps))
    ensures var s := Exec(Init(limit), steps);
      && s.permits == limit && s.active == 0 && Executing(s) == {}
      && forall id :: id in s.calls ==> s.calls[id].caller.Refused? || s.calls[id].released == 1
  {
    SlotsAreConserved(limit, steps);
    RunKeepsInv(Init(limit), steps);
    var s := Exec(Init(limit), steps);
    forall id | id in s.calls
      ensures !Holds(s.calls[id]) && (s.calls[id].caller.Refused? || s.calls[id].released == 1)
    {
      var c := s.calls[id];
      forall a ensures !Ready(c, a) { assert !Enabled(s, Act(id, a)); }
      RestingCallHoldsNothing(c);
    }
    assert Held(s) == {};
  }

  /** A caller that timed out keeps its slot as long as the operation runs. */
  lemma AbandonedOperationKeepsItsSlot(limit: nat, steps: seq<Step>, id: nat)
    requires Legal(Init(limit), steps)
    requires id in Exec(Init(limit), steps).calls && Exec(Init(limit), steps).calls[id].caller.Left?
    ensures var s := Exec(Init(limit), steps);
      s.calls[id].future.Running? ==>
        id in Held(s) && !Enabled(s, Act(id, ReleasePermit)) && !Enabled(s, Act(id, CountOut))
  {
    RunKeepsInv(Init(limit), steps);
  }

  // ---------- what can happen to a call ----------

  /** One call taking these steps; `granted` says whether a permit is free at the start. */
  predicate LegalCall(c: Call, acts: seq<Action>, granted: bool)
    decreases acts
  {
    acts == [] || (Ready(c, acts[0]) && LegalCall(Advance(c, acts[0], granted), acts[1..], granted))
  }

  function ExecCall(c: Call, acts: seq<Action>, granted: bool): Call
    requires LegalCall(c, acts, granted)
    decreases acts
  {
    if acts == [] then c else ExecCall(Advance(c, acts[0], granted), acts[1..], granted)
  }

  function ActsOf(id: nat, acts: seq<Action>): seq<Step> {
    seq(|acts|, i requires 0 <= i < |acts| => Act(id, acts[i]))
  }

  /** A call can take its steps whatever the other calls do not do meanwhile. */
  lemma {:induction false} CallRunsAlone(s: State, id: nat, acts: seq<Action>, granted: bool)
    requires id in s.calls && CallInv(s.calls[id]) && LegalCall(s.calls[id], acts, granted)
    requires s.calls[id].caller.Arrived? ==> granted == (s.permits > 0)
    ensures Legal(s, ActsOf(id, acts))
    ensures Exec(s, ActsOf(id, acts)).calls == s.calls[id := ExecCall(s.calls[id], acts, granted)]
    decreases acts
  {
    var run := ActsOf(id, acts);
    if acts == [] {
      assert s.calls[id := s.calls[id]] == s.calls;
    } else {
      var s' := Do(s, Act(id, acts[0]));
      assert run[1..] == ActsOf(id, acts[1..]);
      StepKeepsShape(s.calls[id], acts[0], granted);
      CallRunsAlone(s', id, acts[1..], granted);
    }
  }

  lemma {:induction false} LongerCallRun(c: Call, acts: seq<Action>, a: Action, granted: bool)
    requires LegalCall(c, acts, granted) && Ready(ExecCall(c, acts, granted), a)
    ensures LegalCall(c, acts + [a], granted)
    ensures ExecCall(c, acts + [a], granted) == Advance(ExecCall(c, acts, granted), a, granted)
    decreases acts
  {
    if acts == [] {
      assert [a][1..] == [];
    } else {
      assert (acts + [a])[1..] == acts[1..] + [a];
      LongerCallRun(Advance(c, acts[0], granted), acts[1..], a, granted);
    }
  }

  /** A call in this state found a permit free, or it found none. */
  predicate Found(c: Call, granted: bool) {
    match c.caller
    case Arrived => true
    case Refused(byRate) => byRate || !granted
    case _ => granted
  }

  /** Submitted, or waiting with the callback registered: the worker came last, or it
      has not come yet. */
  lemma LastWorkerStep(c: Call) returns (p: Call, a: Action)
    requires CallInv(c) && c.countedOut == 0
    requires c.caller.Submitted? || (c.caller.Waiting? && c.registered)
    ensures CallInv(p) && Found(p, true) && Ready(p, a) && Advance(p, a, true) == c && Rank(p) > Rank(c)
  {
    if c.future.Finished? { return c.(future := Running, entered := 0), WorkerFinishes; }
    if c.future.Running? { return c.(future := Pending, started := 0), WorkerStarts; }
    if c.caller.Waiting? { return c.(caller := Submitted, registered := false), Register; }
    return c.(caller := Counted, future := Unsubmitted), Submit;
  }

  lemma LastStepInside(c: Call, granted: bool) returns (p: Call, a: Action)
    requires CallInv(c) && Found(c, granted) && c != FRESH && c.countedOut == 0
    requires !c.caller.Leaving? && !c.caller.Left?
    ensures CallInv(p) && Found(p, granted) && Ready(p, a) && Advance(p, a, granted) == c
    ensures Rank(p) > Rank(c)
  {
    match c.caller
    case Refused(byRate) => return FRESH, if byRate then TokenRefused else TryAcquire;
    case Acquired => return FRESH, TryAcquire;
    case Counted => return c.(caller := Acquired), CountIn;
    case SubmitFailed => return c.(caller := Counted, entered := 0), SubmitRaises;
    case TimedOut => return c.(caller := Waiting), TimesOut;
    case Submitted => p, a := LastWorkerStep(c);
    case Waiting =>
      if !c.registered { return c.(caller := Submitted, entered := 0), Register; }
      p, a := LastWorkerStep(c);
  }

  lemma LastLeavingStep(c: Call) returns (p: Call, a: Action)
    requires CallInv(c) && c.countedOut == 0 && (c.caller.Leaving? || c.caller.Left?)
    ensures CallInv(p) && Found(p, true) && Ready(p, a) && Advance(p, a, true) == c && Rank(p) > Rank(c)
  {
    match c.caller
    case Leaving(o) =>
      if c.future.Cancelled? { return c.(caller := TimedOut, future := Pending, entered := 0), CancelFuture; }
      if o.TimeOut? { return c.(caller := TimedOut), CancelFuture; }
      return c.(caller := Waiting), if o.Result? then ResultReady else Interrupted;
    case Left(o) =>
      if c.future.Cancelled? && o.Other? {
        return c.(caller := Leaving(o), future := Pending, entered := 0), Shutdown(true);
      }
      return c.(caller := Leaving(o)), Shutdown(false);
  }

  /** Every state but the first has a step that leads to it, from a state of the same shape. */
  lemma LastStep(c: Call, granted: bool) returns (p: Call, a: Action)
    requires CallInv(c) && Found(c, granted) && c != FRESH
    ensures CallInv(p) && Found(p, granted) && Ready(p, a) && Advance(p, a, granted) == c
    ensures Rank(p) > Rank(c)
  {
    if c.released == 1 { return c.(released := 0), ReleasePermit; }
    if c.countedOut == 1 { return c.(countedOut := 0), CountOut; }
    if c.caller.Leaving? || c.caller.Left? {
      p, a := LastLeavingStep(c);
    } else {
      p, a := LastStepInside(c, granted);
    }
  }

  lemma {:induction false} ShapeIsReached(c: Call, granted: bool) returns (acts: seq<Action>)
    requires CallInv(c) && Found(c, granted)
    ensures LegalCall(FRESH, acts, granted) && ExecCall(FRESH, acts, granted) == c
    decreases 12 - Rank(c)
  {
    if c == FRESH { return []; }
    var p, a := LastStep(c, granted);
    acts := ShapeIsReached(p, granted);
    LongerCallRun(FRESH, acts, a, granted);
    acts := acts + [a];
  }

  lemma ArrivedCallRuns(s: State, id: nat, acts: seq<Action>, c: Call)
    requires id !in s.calls && LegalCall(FRESH, acts, s.permits > 0) && ExecCall(FRESH, acts, s.permits > 0) == c
    ensures var run := [Arrive(id)] + ActsOf(id, acts);
      Legal(s, run) && Exec(s, run).calls == s.calls[id := c]
  {
    var s' := Do(s, Arrive(id));
    CallRunsAlone(s', id, acts, s.permits > 0);
    assert ([Arrive(id)] + ActsOf(id, acts))[1..] == ActsOf(id, acts);
  }

  /**
   The shape of a call is exact: from every reachable state, a new call can come into
   every state of that shape that fits the permits, while no other call changes.
   */
  lemma EveryShapeIsReached(limit: nat, steps: seq<Step>, id: nat, c: Call) returns (run: seq<Step>)
    requires Legal(Init(limit), steps) && id !in Exec(Init(limit), steps).calls
    requires CallInv(c) && Found(c, |Held(Exec(Init(limit), steps))| < limit)
    ensures var s := Exec(Init(limit), steps);
      Legal(s, run) && Exec(s, run).calls == s.calls[id := c]
  {
    RunKeepsInv(Init(limit), steps);
    var s := Exec(Init(limit), steps);
    var acts := ShapeIsReached(c, s.permits > 0);
    ArrivedCallRuns(s, id, acts, c);
    run := [Arrive(id)] + ActsOf(id, acts);
  }

  lemma SameSlots(s: State, s': State, id: nat, c: Call)
    requires SlotsInv(s) && SlotsInv(s') && s'.limit == s.limit
    requires id !in s.calls && s'.calls == s.calls[id := c] && !Holds(c)
    ensures s'.permits == s.permits && s'.active == s.active
  {
    ArrivalHoldsNothing(s, id, c);
    assert s.(calls := s'.calls).calls == s'.calls;
    assert Held(s') == Held(s) && CountedIn(s') == CountedIn(s);
  }

  /** In particular, as long as a permit is free, a new call can get its result, after
      its operation ran once, and leave permits and counter as they were. */
  lemma NewCallCanReturn(limit: nat, steps: seq<Step>, id: nat) returns (run: seq<Step>)
    requires Legal(Init(limit), steps) && id !in Exec(Init(limit), steps).calls
    requires |Held(Exec(Init(limit), steps))| < limit
    ensures var s := Exec(Init(limit), steps);
      && Legal(s, run) && Exec(s, run).calls == s.calls[id := Call(Left(Result), Finished, true, 1, 1, 1, 1)]
      && Exec(s, run).permits == s.permits && Exec(s, run).active == s.active
  {
    var c := Call(Left(Result), Finished, true, 1, 1, 1, 1);
    run := EveryShapeIsReached(limit, steps, id, c);
    var s := Exec(Init(limit), steps);
    RunKeepsInv(Init(limit), steps);
    RunKeepsInv(s, run);
    SameSlots(s, Exec(s, run), id, c);
  }

  /** What each outcome means, in every interleaving. */
  lemma OutcomeFacts(limit: nat, steps: seq<Step>, id: nat)
    requires Legal(Init(limit), steps) && id in Exec(Init(limit), steps).calls
    ensures var c := Exec(Init(limit), steps).calls[id];
      && (Leaves(c.caller, Result) ==> c.future.Finished? && c.started == 1)
      && (c.caller.Refused? || c.caller.SubmitFailed? ==> c.future.Unsubmitted? && c.started == 0)
      && (c.future.Cancelled? ==> c.started == 0 && !Leaves(c.caller, Result))
  {
    RunKeepsInv(Init(limit), steps);
  }

  lemma OneAct(c: Call, a: Action, granted: bool)
    requires Ready(c, a)
    ensures LegalCall(c, [a], granted) && ExecCall(c, [a], granted) == Advance(c, a, granted)
  {
    assert [a][1..] == [];
  }

  lemma TwoActs(c: Call, a: Action, b: Action, granted: bool)
    requires Ready(c, a) && Ready(Advance(c, a, granted), b)
    ensures LegalCall(c, [a, b], granted)
    ensures ExecCall(c, [a, b], granted) == Advance(Advance(c, a, granted), b, granted)
  {
    OneAct(c, a, granted);
    LongerCallRun(c, [a], b, granted);
    assert [a] + [b] == [a, b];
  }

  lemma ThreeActs(c: Call, a: Action, b: Action, d: Action, granted: bool)
    requires Ready(c, a) && Ready(Advance(c, a, granted), b)
    requires Ready(Advance(Advance(c, a, granted), b, granted), d)
    ensures LegalCall(c, [a, b, d], granted)
    ensures ExecCall(c, [a, b, d], granted) == Advance(Advance(Advance(c, a, granted), b, granted), d, granted)
  {
    TwoActs(c, a, b, granted);
    LongerCallRun(c, [a, b], d, granted);
    assert [a, b] + [d] == [a, b, d];
  }

  lemma ReachedCallRuns(limit: nat, steps: seq<Step>, id: nat, acts: seq<Action>)
    requires Legal(Init(limit), steps) && id in Exec(Init(limit), steps).calls
    requires !Exec(Init(limit), steps).calls[id].caller.Arrived?
    requires LegalCall(Exec(Init(limit), steps).calls[id], acts, true)
    ensures var s := Exec(Init(limit), steps);
      Legal(s, ActsOf(id, acts)) && Exec(s, ActsOf(id, acts)).calls == s.calls[id := ExecCall(s.calls[id], acts, true)]
  {
    RunKeepsInv(Init(limit), steps);
    CallRunsAlone(Exec(Init(limit), steps), id, acts, true);
  }

  const RESULT := [WorkerStarts, WorkerFinishes, ResultReady]

  const RETURNED := Call(Leaving(Result), Finished, true, 1, 0, 0, 1)

  lemma WaitingReturns(c: Call)
    requires CallInv(c) && c.caller.Waiting? && c.future.Pending?
    ensures LegalCall(c, RESULT, true) && ExecCall(c, RESULT, true) == RETURNED
  {
    ThreeActs(c, WorkerStarts, WorkerFinishes, ResultReady, true);
  }

  lemma SubmittedReturns(c: Call)
    requires CallInv(c) && c.caller.Submitted? && c.future.Pending?
    ensures LegalCall(c, [Register] + RESULT, true) && ExecCall(c, [Register] + RESULT, true) == RETURNED
  {
    StepKeepsShape(c, Register, true);
    WaitingReturns(Advance(c, Register, true));
    assert ([Register] + RESULT)[1..] == RESULT;
  }

  /** In every reachable state a waiting call whose operation was not started can get its
      result, and a call whose callback is not registered yet as well. */
  lemma PendingCallCanReturn(limit: nat, steps: seq<Step>, id: nat)
    requires Legal(Init(limit), steps)
    requires id in Exec(Init(limit), steps).calls && Exec(Init(limit), steps).calls[id].future.Pending?
    ensures var s := Exec(Init(limit), steps);
      && (s.calls[id].caller.Waiting? ==>
            Legal(s, ActsOf(id, RESULT)) && Exec(s, ActsOf(id, RESULT)).calls == s.calls[id := RETURNED])
      && (s.calls[id].caller.Submitted? ==>
            Legal(s, ActsOf(id, [Register] + RESULT))
            && Exec(s, ActsOf(id, [Register] + RESULT)).calls == s.calls[id := RETURNED])
  {
    RunKeepsInv(Init(limit), steps);
    var c := Exec(Init(limit), steps).calls[id];
    if c.caller.Waiting? {
      WaitingReturns(c);
      ReachedCallRuns(limit, steps, id, RESULT);
    } else if c.caller.Submitted? {
      SubmittedReturns(c);
      ReachedCallRuns(limit, steps, id, [Register] + RESULT);
    }
  }

  /** Whatever its operation does, a waiting call can time out, or leave with another
      exception, at once. */
  lemma WaitingCallCanLeave(limit: nat, steps: seq<Step>, id: nat)
    requires Legal(Init(limit), steps)
    requires id in Exec(Init(limit), steps).calls && Exec(Init(limit), steps).calls[id].caller.Waiting?
    ensures var s := Exec(Init(limit), steps);
      var late, broken := ActsOf(id, [TimesOut, CancelFuture]), ActsOf(id, [Interrupted, Shutdown(true)]);
      && Legal(s, late) && Exec(s, late).calls == s.calls[id := Cancel(s.calls[id]).(caller := Leaving(TimeOut))]
      && Legal(s, broken) && Exec(s, broken).calls == s.calls[id := Cancel(s.calls[id]).(caller := Left(Other))]
  {
    var c := Exec(Init(limit), steps).calls[id];
    TwoActs(c, TimesOut, CancelFuture, true);
    ReachedCallRuns(limit, steps, id, [TimesOut, CancelFuture]);
    TwoActs(c, Interrupted, Shutdown(true), true);
    ReachedCallRuns(limit, steps, id, [Interrupted, Shutdown(true)]);
  }

  // ---------- the shared fields ----------

  /**
   The semaphore and the counter that the callers and workers share. `calls` is
   the bookkeeping of the protocol; each method is one atomic section.
   */
  class Policy {
    const limit: nat
    var permits: int
    var active: int
    ghost var calls: map<nat, Call>

    ghost function View(): State reads this { State(limit, permits, active, calls) }

    constructor (limit: nat)
      ensures this.limit == limit && View() == Init(limit) && Inv(View())
    {
      this.limit := limit;
      permits, active, calls := limit, 0, map[];
      new;
      assert Held(View()) == {} && CountedIn(View()) == {};
    }

    method TryAcquire(ghost id: nat) returns (granted: bool)
      requires Inv(View()) && Enabled(View(), Act(id, Action.TryAcquire))
      modifies this
      ensures View() == Do(old(View()), Act(id, Action.TryAcquire)) && Inv(View())
      ensures granted <==> |Held(old(View()))| < limit
      ensures granted <==> id in Held(View())
    {
      StepKeepsInv(View(), Act(id, Action.TryAcquire));
      ghost var next := Do(View(), Act(id, Action.TryAcquire));
      granted := permits > 0;
      if granted { permits := permits - 1; }
      calls := next.calls;
    }

    method CountIn(ghost id: nat) returns (current: int)
      requires Inv(View()) && Enabled(View(), Act(id, Action.CountIn))
      modifies this
      ensures View() == Do(old(View()), Act(id, Action.CountIn)) && Inv(View())
      ensures current == |CountedIn(View())|
    {
      StepKeepsInv(View(), Act(id, Action.CountIn));
      ghost var next := Do(View(), Act(id, Action.CountIn));
      active := active + 1;
      current := active;
      calls := next.calls;
    }

    method CountOut(ghost id: nat) returns (remaining: int)
      requires Inv(View()) && Enabled(View(), Act(id, Action.CountOut))
      modifies this
      ensures View() == Do(old(View()), Act(id, Action.CountOut)) && Inv(View())
      ensures remaining == |CountedIn(View())| >= 0
    {
      StepKeepsInv(View(), Act(id, Action.CountOut));
      ghost var next := Do(View(), Act(id, Action.CountOut));
      active := active - 1;
      remaining := active;
      calls := next.calls;
    }

    /** `BoundedSemaphore.release` raises when the permits are already complete;
        the assertion shows that it never does here. */
    method ReleasePermit(ghost id: nat)
      requires Inv(View()) && Enabled(View(), Act(id, Action.ReleasePermit))
      modifies this
      ensures View() == Do(old(View()), Act(id, Action.ReleasePermit)) && Inv(View())
      ensures id in Held(old(View())) && id !in Held(View())
    {
      StepKeepsInv(View(), Act(id, Action.ReleasePermit));
      ReleaseFacts(View(), id);
      ghost var next := Do(View(), Act(id, Action.ReleasePermit));
      assert permits < limit;
      permits := permits + 1;
      calls := next.calls;
      assert View() == next;
    }
  }
}
