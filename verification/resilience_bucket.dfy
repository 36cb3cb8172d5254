/**
 The token bucket of ResiliencePolicy (contexts/ai/resilience.py, lines 41-59).

 The clock is read before the lock is taken, so the readings that reach the
 critical section may be in any order. Unless a statement says `InOrder`, it
 holds for every sequence of readings. Amounts and clocks are reals.

 The proofs measure time by the tokens it earns: the mark of a reading `c` is
 `rate * c`, which keeps every step of a run linear.
 */
module TokenBucket {
  import opened Collections

  datatype State = State(tokens: real, mark: real)

  function Min(a: real, b: real): real { if a <= b then a else b }

  /** What a bucket of capacity `cap` holds once it is refilled at `mark`. */
  function Level(cap: real, s: State, mark: real): real {
    Min(cap, s.tokens + mark - s.mark)
  }

  predicate Admits(cap: real, s: State, mark: real) { Level(cap, s, mark) >= 1.0 }

  /** The effect of one call of `_take_token`. */
  function Take(cap: real, s: State, mark: real): State {
    State(Level(cap, s, mark) - (if Admits(cap, s, mark) then 1.0 else 0.0), mark)
  }

  /** Which calls of a run are admitted. */
  function Outcomes(cap: real, s: State, marks: seq<real>): (r: seq<bool>)
    ensures |r| == |marks|
    decreases marks
  {
    if marks == [] then [] else
      [Admits(cap, s, marks[0])] + Outcomes(cap, Take(cap, s, marks[0]), marks[1..])
  }

  function After(cap: real, s: State, marks: seq<real>): State
    decreases marks
  {
    if marks == [] then s else After(cap, Take(cap, s, marks[0]), marks[1..])
  }

  /** The tokens a clock reading is worth at this rate. */
  function Worth(rate: real): real -> real { clock => rate * clock }

  function Marks(rate: real, clocks: seq<real>): (r: seq<real>)
    ensures |r| == |clocks|
  {
    Map(Worth(rate), clocks)
  }

  function Full(rate: real, t0: real): State { State(rate, rate * t0) }

  /** The outcomes of calls with these clock readings on a policy built at `t0`. */
  function Run(rate: real, t0: real, clocks: seq<real>): (r: seq<bool>)
    ensures |r| == |clocks|
  {
    Outcomes(rate, Full(rate, t0), Marks(rate, clocks))
  }

  ghost predicate InOrder(start: real, clocks: seq<real>) {
    && (|clocks| > 0 ==> start <= clocks[0])
    && forall i, j :: 0 <= i < j < |clocks| ==> clocks[i] <= clocks[j]
  }

  /** The object whose fields `_take_token` updates under `_rate_lock`. */
  class Bucket {
    const rate: real
    var tokens: real
    var last: real

    function View(): State reads this { State(tokens, rate * last) }

    constructor (rate: real, now: real)
      requires rate > 0.0
      ensures this.rate == rate && last == now && View() == Full(rate, now)
    {
      this.rate := rate;
      tokens, last := rate, now;
    }

    method TakeToken(now: real) returns (admitted: bool)
      modifies this
      ensures View() == Take(rate, old(View()), rate * now) && last == now
      ensures admitted == Admits(rate, old(View()), rate * now)
    {
      var elapsed := now - last;
      assert elapsed * rate == rate * now - rate * last;
      tokens := Min(rate, tokens + elapsed * rate);
      last := now;
      if tokens < 1.0 {
        return false;
      }
      tokens := tokens - 1.0;
      admitted := true;
    }
  }

  /** `__post_init__`: a policy exists only when all three limits are positive. */
  method NewPolicy(maxConcurrency: int, rate: real, timeout: real, now: real) returns (b: Option<Bucket>)
    ensures b.Some? <==> maxConcurrency >= 1 && rate > 0.0 && timeout > 0.0
    ensures b.Some? ==> fresh(b.value) && b.value.rate == rate && b.value.View() == Full(rate, now)
  {
    if maxConcurrency < 1 || rate <= 0.0 || timeout <= 0.0 {
      return None;
    }
    var bucket := new Bucket(rate, now);
    b := Some(bucket);
  }

  // ---------- runs ----------

  lemma {:induction false} RunSplit(cap: real, s: State, a: seq<real>, b: seq<real>)
    ensures After(cap, s, a + b) == After(cap, After(cap, s, a), b)
    ensures Outcomes(cap, s, a + b) == Outcomes(cap, s, a) + Outcomes(cap, After(cap, s, a), b)
    decreases a
  {
    if a == [] {
      assert a + b == b;
    } else {
      assert (a + b)[1..] == a[1..] + b;
      RunSplit(cap, Take(cap, s, a[0]), a[1..], b);
    }
  }

  /** The outcome of call `i` is decided by the state the first `i` calls left. */
  lemma OutcomeAt(cap: real, s: State, marks: seq<real>, i: nat)
    requires i < |marks|
    ensures Outcomes(cap, s, marks)[i] == Admits(cap, After(cap, s, marks[..i]), marks[i])
  {
    assert marks == marks[..i] + ([marks[i]] + marks[i + 1..]);
    RunSplit(cap, s, marks[..i], [marks[i]] + marks[i + 1..]);
  }

  lemma {:induction false} NeverOverfull(cap: real, s: State, marks: seq<real>)
    requires s.tokens <= cap
    ensures After(cap, s, marks).tokens <= cap
    decreases marks
  {
    if marks != [] { NeverOverfull(cap, Take(cap, s, marks[0]), marks[1..]); }
  }

  // ---------- the admission bound, for any order of clock readings ----------

  /** `k` is the last admitted call of the run. */
  ghost predicate LastAdmission(outcomes: seq<bool>, k: nat) {
    k < |outcomes| && outcomes[k] && forall j :: k < j < |outcomes| ==> !outcomes[j]
  }

  /** The potential `tokens - mark + admitted` never grows. */
  lemma {:induction false} PotentialBound(cap: real, s: State, marks: seq<real>, k: nat)
    requires LastAdmission(Outcomes(cap, s, marks), k)
    ensures Count(Outcomes(cap, s, marks)) as real <= s.tokens + marks[k] - s.mark
    decreases marks
  {
    var s1 := Take(cap, s, marks[0]);
    var all, rest := Outcomes(cap, s, marks), Outcomes(cap, s1, marks[1..]);
    assert all[1..] == rest;
    if k == 0 {
      forall j | 0 <= j < |rest| ensures !rest[j] { assert rest[j] == all[j + 1]; }
      CountNone(rest);
    } else {
      forall j | k - 1 < j < |rest| ensures !rest[j] { assert rest[j] == all[j + 1]; }
      PotentialBound(cap, s1, marks[1..], k - 1);
    }
  }

  /** From any state no fuller than the capacity, counting from the first call. */
  lemma SegmentBound(cap: real, s: State, marks: seq<real>, k: nat)
    requires s.tokens <= cap && LastAdmission(Outcomes(cap, s, marks), k)
    ensures Count(Outcomes(cap, s, marks)) as real <= cap + marks[k] - marks[0]
  {
    // Refilling the state to its level at the first reading changes no outcome.
    var r := State(Level(cap, s, marks[0]), marks[0]);
    assert Take(cap, r, marks[0]) == Take(cap, s, marks[0]);
    assert Outcomes(cap, r, marks) == Outcomes(cap, s, marks);
    PotentialBound(cap, r, marks, k);
  }

  lemma SegmentOfRun(cap: real, s: State, marks: seq<real>, i: nat, j: nat)
    requires i <= j <= |marks|
    ensures Outcomes(cap, s, marks)[i..j] == Outcomes(cap, After(cap, s, marks[..i]), marks[i..j])
  {
    assert marks == marks[..i] + (marks[i..j] + marks[j..]);
    RunSplit(cap, s, marks[..i], marks[i..j] + marks[j..]);
    RunSplit(cap, After(cap, s, marks[..i]), marks[i..j], marks[j..]);
  }

  lemma SegmentBoundInMarks(cap: real, s: State, marks: seq<real>, i: nat, j: nat, k: nat)
    requires s.tokens <= cap
    requires i <= j <= |marks| && LastAdmission(Outcomes(cap, s, marks)[i..j], k)
    ensures Count(Outcomes(cap, s, marks)[i..j]) as real <= cap + marks[i + k] - marks[i]
  {
    SegmentOfRun(cap, s, marks, i, j);
    NeverOverfull(cap, s, marks[..i]);
    SegmentBound(cap, After(cap, s, marks[..i]), marks[i..j], k);
  }

  lemma Distribute(rate: real, a: real, b: real)
    ensures rate * (1.0 + a - b) == rate + rate * a - rate * b
  {}

  lemma InClockTime(rate: real, n: nat, a: real, b: real)
    requires n as real <= rate + Worth(rate)(a) - Worth(rate)(b)
    ensures n as real <= rate * (1.0 + a - b)
  {
    Distribute(rate, a, b);
  }

  /**
   In every contiguous segment [i, j) of a run, the admitted calls number at
   most `rate * (1 + clock of the last admission - clock of the first call)`.
   */
  lemma AdmissionBound(rate: real, t0: real, clocks: seq<real>, i: nat, j: nat, k: nat)
    requires i <= j <= |clocks| && LastAdmission(Run(rate, t0, clocks)[i..j], k)
    ensures Count(Run(rate, t0, clocks)[i..j]) as real <= rate * (1.0 + clocks[i + k] - clocks[i])
  {
    var marks, admitted := Marks(rate, clocks), Count(Run(rate, t0, clocks)[i..j]);
    assert admitted as real <= rate + Worth(rate)(clocks[i + k]) - Worth(rate)(clocks[i]) by {
      SegmentBoundInMarks(rate, Full(rate, t0), marks, i, j, k);
    }
    InClockTime(rate, admitted, clocks[i + k], clocks[i]);
  }

  /** Since construction at `t0`: at most `rate * (1 + last admission - t0)`. */
  lemma LifetimeBound(rate: real, t0: real, clocks: seq<real>, k: nat)
    requires LastAdmission(Run(rate, t0, clocks), k)
    ensures Count(Run(rate, t0, clocks)) as real <= rate * (1.0 + clocks[k] - t0)
  {
    PotentialBound(rate, Full(rate, t0), Marks(rate, clocks), k);
    Distribute(rate, clocks[k], t0);
  }

  // ---------- the bucket is exactly as strict as that bound ----------

  /** The continuously refilled bucket: only its construction (at mark `m0`) and
      the admissions matter. */
  function Ideal(cap: real, m0: real, admitted: seq<real>, mark: real): real
    decreases admitted
  {
    if admitted == [] then Min(cap, cap + mark - m0)
    else
      var last := |admitted| - 1;
      Min(cap, Ideal(cap, m0, admitted[..last], admitted[last]) - 1.0 + mark - admitted[last])
  }

  /** Spending `extra` at `mark` overdraws no window since construction or since
      an earlier admission. */
  ghost predicate Affordable(cap: real, m0: real, admitted: seq<real>, mark: real, extra: real) {
    && extra <= cap
    && |admitted| as real + extra <= cap + mark - m0
    && forall j :: 0 <= j < |admitted| ==> (|admitted| - j) as real + extra <= cap + mark - admitted[j]
  }

  lemma {:induction false} IdealIsTightestWindow(cap: real, m0: real, admitted: seq<real>, mark: real, extra: real)
    ensures Ideal(cap, m0, admitted, mark) >= extra <==> Affordable(cap, m0, admitted, mark, extra)
    decreases admitted
  {
    if admitted != [] {
      var m := |admitted| - 1;
      var before, need := admitted[..m], extra + 1.0 - mark + admitted[m];
      IdealIsTightestWindow(cap, m0, before, admitted[m], need);
      if Affordable(cap, m0, admitted, mark, extra) {
        forall j | 0 <= j < m ensures (m - j) as real + need <= cap + admitted[m] - before[j] {
          assert (|admitted| - j) as real + extra <= cap + mark - admitted[j];
        }
      }
      if extra <= cap && Affordable(cap, m0, before, admitted[m], need) {
        forall j | 0 <= j < |admitted| ensures (|admitted| - j) as real + extra <= cap + mark - admitted[j] {
          if j < m { assert (m - j) as real + need <= cap + admitted[m] - before[j]; }
        }
      }
    }
  }

  /** A rejected call leaves every later level as it was, whatever its clock. */
  lemma RejectionIsNeutral(cap: real, s: State, mark: real, later: real)
    requires cap >= 1.0 && !Admits(cap, s, mark)
    ensures Level(cap, Take(cap, s, mark), later) == Level(cap, s, later)
  {}

  lemma {:induction false} SelectSnoc<T>(xs: seq<T>, keep: seq<bool>, x: T, k: bool)
    requires |xs| == |keep|
    ensures Select(xs + [x], keep + [k]) == Select(xs, keep) + (if k then [x] else [])
  {
    if xs != [] {
      assert (xs + [x])[1..] == xs[1..] + [x];
      assert (keep + [k])[1..] == keep[1..] + [k];
      SelectSnoc(xs[1..], keep[1..], x, k);
    }
  }

  /** The lazy bucket and the ideal one show the same level at every instant. */
  lemma {:induction false} LazyIsIdeal(cap: real, m0: real, marks: seq<real>, mark: real)
    requires cap >= 1.0
    ensures Level(cap, After(cap, State(cap, m0), marks), mark)
         == Ideal(cap, m0, Select(marks, Outcomes(cap, State(cap, m0), marks)), mark)
    decreases |marks|
  {
    if marks != [] {
      var s, n := State(cap, m0), |marks| - 1;
      var before, now := marks[..n], marks[n];
      assert marks == before + [now];
      RunSplit(cap, s, before, [now]);
      var mid := After(cap, s, before);
      SelectSnoc(before, Outcomes(cap, s, before), now, Admits(cap, mid, now));
      assert Outcomes(cap, mid, [now]) == [Admits(cap, mid, now)];
      assert After(cap, mid, [now]) == Take(cap, mid, now) by { assert [now][1..] == []; }
      if Admits(cap, mid, now) {
        LazyIsIdeal(cap, m0, before, now);
        var times := Select(before, Outcomes(cap, s, before));
        assert (times + [now])[..|times|] == times;
      } else {
        assert Select(marks, Outcomes(cap, s, marks)) == Select(before, Outcomes(cap, s, before));
        LazyIsIdeal(cap, m0, before, mark);
        RejectionIsNeutral(cap, mid, now, mark);
      }
    }
  }

  /** Below one token a second no call is ever admitted. */
  lemma {:induction false} BelowOneNeverAdmits(cap: real, s: State, marks: seq<real>)
    requires cap < 1.0
    ensures forall i :: 0 <= i < |marks| ==> !Outcomes(cap, s, marks)[i]
    decreases marks
  {
    if marks != [] { BelowOneNeverAdmits(cap, Take(cap, s, marks[0]), marks[1..]); }
  }

  /** In clock time: with one more call admitted at `t`, no window since
      construction or since an earlier admission holds more than
      `rate * (1 + its length)` calls. */
  ghost predicate EveryWindowAllows(rate: real, t0: real, admitted: seq<real>, t: real) {
    && 1.0 <= rate
    && (|admitted| + 1) as real <= rate * (1.0 + t - t0)
    && forall j :: 0 <= j < |admitted| ==> (|admitted| - j + 1) as real <= rate * (1.0 + t - admitted[j])
  }

  lemma WindowsInMarks(rate: real, t0: real, admitted: seq<real>, t: real)
    ensures EveryWindowAllows(rate, t0, admitted, t)
       <==> Affordable(rate, rate * t0, Marks(rate, admitted), rate * t, 1.0)
  {
    Distribute(rate, t, t0);
    forall j | 0 <= j < |admitted|
      ensures rate * (1.0 + t - admitted[j]) == rate + rate * t - Marks(rate, admitted)[j]
    {
      Distribute(rate, t, admitted[j]);
    }
  }

  lemma AdmittedIffAffordable(cap: real, m0: real, marks: seq<real>, i: nat)
    requires i < |marks|
    ensures Outcomes(cap, State(cap, m0), marks)[i] <==>
            Affordable(cap, m0, Select(marks[..i], Outcomes(cap, State(cap, m0), marks[..i])), marks[i], 1.0)
  {
    var s := State(cap, m0);
    if cap < 1.0 {
      BelowOneNeverAdmits(cap, s, marks);
    } else {
      OutcomeAt(cap, s, marks, i);
      LazyIsIdeal(cap, m0, marks[..i], marks[i]);
      IdealIsTightestWindow(cap, m0, Select(marks[..i], Outcomes(cap, s, marks[..i])), marks[i], 1.0);
    }
  }

  /**
   The exact admission rule, for any clock order: call `i` is admitted if and
   only if admitting it keeps every window within the bound.
   */
  lemma AdmittedIffEveryWindowAllows(rate: real, t0: real, clocks: seq<real>, i: nat)
    requires i < |clocks|
    ensures Run(rate, t0, clocks)[i] <==>
            EveryWindowAllows(rate, t0, Select(clocks[..i], Run(rate, t0, clocks[..i])), clocks[i])
  {
    var before := clocks[..i];
    AdmittedIffAffordable(rate, rate * t0, Marks(rate, clocks), i);
    MapPrefix(Worth(rate), clocks, i);
    SelectMap(Worth(rate), before, Run(rate, t0, before));
    WindowsInMarks(rate, t0, Select(before, Run(rate, t0, before)), clocks[i]);
  }

  /** Some call in some run is admitted exactly when the rate is at least one a second. */
  lemma SomeCallIsAdmittedIff(rate: real, t0: real)
    ensures (exists clocks: seq<real>, i :: 0 <= i < |clocks| && Run(rate, t0, clocks)[i]) <==> rate >= 1.0
  {
    if rate >= 1.0 {
      var clocks := [t0];
      AdmittedIffEveryWindowAllows(rate, t0, clocks, 0);
      assert Select(clocks[..0], Run(rate, t0, clocks[..0])) == [];
      assert EveryWindowAllows(rate, t0, [], t0);
      assert Run(rate, t0, clocks)[0];
    }
    forall clocks: seq<real>, i | 0 <= i < |clocks| && Run(rate, t0, clocks)[i] ensures rate >= 1.0 {
      AdmittedIffEveryWindowAllows(rate, t0, clocks, i);
    }
  }

  // ---------- rejected calls leave no trace ----------

  lemma {:induction false} DropRejectedFrom(cap: real, s: State, s2: State, marks: seq<real>, keep: seq<bool>)
    requires cap >= 1.0 && |keep| == |marks|
    requires forall m :: Level(cap, s, m) == Level(cap, s2, m)
    requires forall i :: 0 <= i < |marks| && !keep[i] ==> !Outcomes(cap, s, marks)[i]
    ensures Outcomes(cap, s2, Select(marks, keep)) == Select(Outcomes(cap, s, marks), keep)
    decreases marks
  {
    if marks != [] {
      var now, s1 := marks[0], Take(cap, s, marks[0]);
      var all, rest := Outcomes(cap, s, marks), Outcomes(cap, s1, marks[1..]);
      assert all == [Admits(cap, s, now)] + rest;
      assert forall i :: 0 <= i < |rest| ==> rest[i] == all[i + 1];
      assert forall i :: 0 <= i < |rest| ==> keep[1..][i] == keep[i + 1];
      assert all[1..] == rest;
      if keep[0] {
        DropRejectedFrom(cap, s1, s1, marks[1..], keep[1..]);
        var kept := Select(marks[1..], keep[1..]);
        assert ([now] + kept)[1..] == kept;
        assert Level(cap, s, now) == Level(cap, s2, now);
      } else {
        assert !all[0];
        forall m ensures Level(cap, s1, m) == Level(cap, s2, m) {
          RejectionIsNeutral(cap, s, now, m);
          assert Level(cap, s, m) == Level(cap, s2, m);
        }
        DropRejectedFrom(cap, s1, s2, marks[1..], keep[1..]);
        assert Select(marks, keep) == Select(marks[1..], keep[1..]);
        assert Select(all, keep) == Select(rest, keep[1..]);
      }
    }
  }

  lemma {:induction false} SelectNone<T>(flags: seq<bool>, xs: seq<T>, keep: seq<bool>)
    requires |flags| == |keep| == |xs| && forall i :: 0 <= i < |flags| ==> !flags[i]
    ensures forall i :: 0 <= i < |Select(flags, keep)| ==> !Select(flags, keep)[i]
    ensures |Select(flags, keep)| == |Select(xs, keep)|
  {
    if flags != [] { SelectNone(flags[1..], xs[1..], keep[1..]); }
  }

  /** Deleting any of the rejected calls of a run, in any clock order, leaves the
      outcome of every other call unchanged. */
  lemma RejectedCallsCanBeDeleted(rate: real, t0: real, clocks: seq<real>, keep: seq<bool>)
    requires |keep| == |clocks|
    requires forall i :: 0 <= i < |clocks| && !keep[i] ==> !Run(rate, t0, clocks)[i]
    ensures Run(rate, t0, Select(clocks, keep)) == Select(Run(rate, t0, clocks), keep)
  {
    var s, marks := Full(rate, t0), Marks(rate, clocks);
    SelectMap(Worth(rate), clocks, keep);
    if rate >= 1.0 {
      DropRejectedFrom(rate, s, s, marks, keep);
    } else {
      BelowOneNeverAdmits(rate, s, marks);
      BelowOneNeverAdmits(rate, s, Select(marks, keep));
      SelectNone(Outcomes(rate, s, marks), marks, keep);
    }
  }

  // ---------- in-order clocks ----------

  /** With in-order readings the balance stays within [0, capacity]. */
  lemma {:induction false} InOrderStaysInRange(cap: real, s: State, marks: seq<real>)
    requires 0.0 <= s.tokens <= cap && InOrder(s.mark, marks)
    ensures 0.0 <= After(cap, s, marks).tokens <= cap
    ensures After(cap, s, marks).mark == if marks == [] then s.mark else marks[|marks| - 1]
    decreases marks
  {
    if marks != [] { InOrderStaysInRange(cap, Take(cap, s, marks[0]), marks[1..]); }
  }

  lemma Scale(rate: real, gap: real)
    requires rate > 0.0 && gap >= 0.0
    ensures rate * gap >= 0.0
  {}

  lemma MarkMonotone(rate: real, a: real, b: real)
    requires rate > 0.0 && a <= b
    ensures rate * a <= rate * b
  {
    Scale(rate, b - a);
  }

  lemma MarksInOrder(rate: real, t0: real, clocks: seq<real>)
    requires rate > 0.0 && InOrder(t0, clocks)
    ensures InOrder(rate * t0, Marks(rate, clocks))
  {
    var marks := Marks(rate, clocks);
    forall i, j | 0 <= i < j < |clocks| ensures marks[i] <= marks[j] {
      MarkMonotone(rate, clocks[i], clocks[j]);
    }
    if clocks != [] { MarkMonotone(rate, t0, clocks[0]); }
  }

  /** In order, the balance after any run is between 0 and `rate`. */
  lemma BalanceInRange(rate: real, t0: real, clocks: seq<real>)
    requires rate > 0.0 && InOrder(t0, clocks)
    ensures 0.0 <= After(rate, Full(rate, t0), Marks(rate, clocks)).tokens <= rate
  {
    MarksInOrder(rate, t0, clocks);
    InOrderStaysInRange(rate, Full(rate, t0), Marks(rate, clocks));
  }

  /** A call keeps a non-negative balance exactly when its reading lags the
      previous one by no more than the balance is worth. */
  lemma BalanceStaysNonNegative(rate: real, tokens: real, last: real, now: real)
    requires rate > 0.0 && 0.0 <= tokens
    ensures Take(rate, State(tokens, rate * last), rate * now).tokens >= 0.0
       <==> rate * (last - now) <= tokens
  {
    assert rate * (last - now) == rate * last - rate * now;
  }

  lemma BalanceAfter(cap: real, s: State, marks: seq<real>, i: nat)
    requires i < |marks|
    ensures After(cap, s, marks[..i + 1]) == Take(cap, After(cap, s, marks[..i]), marks[i])
  {
    assert marks[..i + 1] == marks[..i] + [marks[i]] && [marks[i]][1..] == [];
    RunSplit(cap, s, marks[..i], [marks[i]]);
    var mid := After(cap, s, marks[..i]);
    assert After(cap, mid, [marks[i]]) == After(cap, Take(cap, mid, marks[i]), []);
  }

  lemma BalanceIffAffordable(cap: real, m0: real, marks: seq<real>, i: nat)
    requires cap >= 1.0 && i < |marks|
    ensures var s := State(cap, m0);
      After(cap, s, marks[..i + 1]).tokens >= 0.0 <==>
        Affordable(cap, m0, Select(marks[..i], Outcomes(cap, s, marks[..i])), marks[i], 0.0)
  {
    var s := State(cap, m0);
    BalanceAfter(cap, s, marks, i);
    LazyIsIdeal(cap, m0, marks[..i], marks[i]);
    IdealIsTightestWindow(cap, m0, Select(marks[..i], Outcomes(cap, s, marks[..i])), marks[i], 0.0);
  }

  /** Below one token a second nothing is spent: the balance is that of the reading
      which the last one lags most. */
  lemma {:induction false} SlowBalanceIff(cap: real, s: State, marks: seq<real>, least: real)
    requires cap < 1.0 && marks != [] && least <= cap
    ensures After(cap, s, marks).tokens >= least <==>
      && s.tokens + marks[|marks| - 1] - s.mark >= least
      && forall j :: 0 <= j < |marks| ==> cap + marks[|marks| - 1] - marks[j] >= least
    decreases marks
  {
    var s1, rest, last := Take(cap, s, marks[0]), marks[1..], marks[|marks| - 1];
    if rest == [] {
      assert After(cap, s, marks) == After(cap, s1, []);
    } else {
      SlowBalanceIff(cap, s1, rest, least);
      assert rest[|rest| - 1] == last;
      assert (forall j :: 0 <= j < |marks| ==> cap + last - marks[j] >= least) <==>
             cap + last - marks[0] >= least && forall j :: 0 <= j < |rest| ==> cap + last - rest[j] >= least by {
        assert forall j :: 0 <= j < |rest| ==> rest[j] == marks[j + 1];
        assert forall j :: 0 < j < |marks| ==> marks[j] == rest[j - 1];
      }
    }
  }

  /** At `t`, no window since construction or since an earlier admission holds more
      than `rate * (1 + its length)` calls. */
  ghost predicate NoWindowOverdrawn(rate: real, t0: real, admitted: seq<real>, t: real) {
    && |admitted| as real <= rate * (1.0 + t - t0)
    && forall j :: 0 <= j < |admitted| ==> (|admitted| - j) as real <= rate * (1.0 + t - admitted[j])
  }

  lemma OverdrawnInMarks(rate: real, t0: real, admitted: seq<real>, t: real)
    requires rate > 0.0
    ensures NoWindowOverdrawn(rate, t0, admitted, t)
       <==> Affordable(rate, rate * t0, Marks(rate, admitted), rate * t, 0.0)
  {
    Distribute(rate, t, t0);
    forall j | 0 <= j < |admitted|
      ensures rate * (1.0 + t - admitted[j]) == rate + rate * t - Marks(rate, admitted)[j]
    {
      Distribute(rate, t, admitted[j]);
    }
  }

  lemma NegativeScale(rate: real, x: real)
    requires rate > 0.0 && x < 0.0
    ensures rate * x < 0.0
  {}

  lemma LagInMarks(rate: real, a: real, b: real)
    requires rate > 0.0
    ensures rate + rate * b - rate * a >= 0.0 <==> a - b <= 1.0
  {
    Distribute(rate, b, a);
    if a - b <= 1.0 { Scale(rate, 1.0 + b - a); } else { NegativeScale(rate, 1.0 + b - a); }
  }

  lemma LagsInTime(rate: real, clocks: seq<real>)
    requires rate > 0.0 && clocks != []
    ensures var marks, t := Marks(rate, clocks), clocks[|clocks| - 1];
      (forall j :: 0 <= j < |marks| ==> rate + marks[|marks| - 1] - marks[j] >= 0.0)
      <==> forall j :: 0 <= j < |clocks| ==> clocks[j] - t <= 1.0
  {
    var marks, t := Marks(rate, clocks), clocks[|clocks| - 1];
    forall j | 0 <= j < |clocks| ensures rate + marks[|marks| - 1] - marks[j] >= 0.0 <==> clocks[j] - t <= 1.0 {
      LagInMarks(rate, clocks[j], t);
    }
  }

  lemma SlowBalanceInTime(rate: real, t0: real, clocks: seq<real>)
    requires 0.0 < rate < 1.0 && clocks != []
    ensures var t := clocks[|clocks| - 1];
      After(rate, Full(rate, t0), Marks(rate, clocks)).tokens >= 0.0 <==>
        t0 - t <= 1.0 && forall j :: 0 <= j < |clocks| ==> clocks[j] - t <= 1.0
  {
    SlowBalanceIff(rate, Full(rate, t0), Marks(rate, clocks), 0.0);
    LagInMarks(rate, t0, clocks[|clocks| - 1]);
    LagsInTime(rate, clocks);
  }

  /**
   The balance after call `i` is non-negative, for any clock order: from one token a
   second on, if and only if at its reading no window is overdrawn; below, if and only
   if its reading lags neither the construction nor an earlier one by over a second.
   */
  lemma BalanceNonNegativeIff(rate: real, t0: real, clocks: seq<real>, i: nat)
    requires rate > 0.0 && i < |clocks|
    ensures After(rate, Full(rate, t0), Marks(rate, clocks[..i + 1])).tokens >= 0.0 <==>
      if rate >= 1.0 then NoWindowOverdrawn(rate, t0, Select(clocks[..i], Run(rate, t0, clocks[..i])), clocks[i])
      else t0 - clocks[i] <= 1.0 && forall j :: 0 <= j <= i ==> clocks[j] - clocks[i] <= 1.0
  {
    var marks := Marks(rate, clocks);
    MapPrefix(Worth(rate), clocks, i);
    MapPrefix(Worth(rate), clocks, i + 1);
    if rate >= 1.0 {
      var before := clocks[..i];
      BalanceIffAffordable(rate, rate * t0, marks, i);
      SelectMap(Worth(rate), before, Run(rate, t0, before));
      OverdrawnInMarks(rate, t0, Select(before, Run(rate, t0, before)), clocks[i]);
    } else {
      SlowBalanceInTime(rate, t0, clocks[..i + 1]);
    }
  }

  /** Two overtaking readings are enough to drive the balance below zero. */
  lemma OvertakingGoesNegative()
    ensures After(2.0, Full(2.0, 0.0), Marks(2.0, [5.0, 1.0])).tokens < 0.0
  {
    var s1 := Take(2.0, Full(2.0, 0.0), 10.0);
    assert Marks(2.0, [5.0, 1.0]) == [10.0, 2.0];
    assert [10.0, 2.0][1..] == [2.0];
    assert After(2.0, s1, [2.0]) == After(2.0, Take(2.0, s1, 2.0), []);
  }

  lemma SpacedInMarks(cap: real, s: State, marks: seq<real>, i: nat)
    requires cap >= 1.0 && 0.0 <= s.tokens <= cap && InOrder(s.mark, marks) && 0 < i < |marks|
    requires marks[i] - marks[i - 1] >= 1.0
    ensures Outcomes(cap, s, marks)[i]
  {
    assert InOrder(s.mark, marks[..i]);
    InOrderStaysInRange(cap, s, marks[..i]);
    OutcomeAt(cap, s, marks, i);
  }

  lemma GapEarnsAToken(rate: real, now: real, last: real)
    requires rate >= 1.0 && now - last >= 1.0 / rate
    ensures rate * now - rate * last >= 1.0
  {
    var spare := now - last - 1.0 / rate;
    Scale(rate, spare);
    assert rate * (1.0 / rate) == 1.0;
    assert rate * now - rate * last == rate * spare + rate * (1.0 / rate);
  }

  /** In order, for `rate >= 1`: a call at least `1 / rate` seconds after the
      previous one is admitted. */
  lemma SpacedCallIsAdmitted(rate: real, t0: real, clocks: seq<real>, i: nat)
    requires rate >= 1.0 && InOrder(t0, clocks) && 0 < i < |clocks|
    requires clocks[i] - clocks[i - 1] >= 1.0 / rate
    ensures Run(rate, t0, clocks)[i]
  {
    MarksInOrder(rate, t0, clocks);
    SpacedInMarks(rate, Full(rate, t0), Marks(rate, clocks), i) by {
      GapEarnsAToken(rate, clocks[i], clocks[i - 1]);
    }
  }

  /** The bound is attained: of a burst of calls at one instant, exactly those
      numbered up to the balance are admitted. */
  lemma {:induction false} BurstAdmitsTheBalance(cap: real, s: State, n: nat, i: nat)
    requires s.tokens <= cap && i < n
    ensures Outcomes(cap, s, seq(n, _ => s.mark))[i] <==> (i + 1) as real <= s.tokens
    decreases n
  {
    var burst := seq(n, _ => s.mark);
    assert burst[1..] == seq(n - 1, _ => s.mark);
    if i > 0 {
      var s1 := Take(cap, s, s.mark);
      if Admits(cap, s, s.mark) {
        BurstAdmitsTheBalance(cap, s1, n - 1, i - 1);
      } else {
        assert s1 == s;
        BurstAdmitsTheBalance(cap, s, n - 1, i - 1);
      }
    }
  }
}
