/** Small value types and sequence functions shared by the other modules. */
module Collections {

  datatype Option<+T> = None | Some(value: T)

  datatype Result<+T, +E> = Ok(value: T) | Err(error: E)

  /** The last `n` elements of `s`, or all of `s` when it has fewer. */
  function Last<T>(s: seq<T>, n: nat): (r: seq<T>)
    ensures |r| == if |s| <= n then |s| else n
  {
    if |s| <= n then s else s[|s| - n..]
  }

  ghost predicate IsSuffix<T>(a: seq<T>, b: seq<T>) {
    |a| <= |b| && a == b[|b| - |a|..]
  }

  lemma Associative<T>(a: seq<T>, b: seq<T>, c: seq<T>)
    ensures (a + b) + c == a + (b + c)
  {}

  lemma Regroup<T>(x: T, y: T, a: seq<T>, b: seq<T>)
    ensures [x] + ([y] + a + b) == [x, y] + a + b
  {}

  lemma SuffixTail<T>(a: seq<T>, b: seq<T>)
    requires IsSuffix(a, b) && a != []
    ensures IsSuffix(a[1..], b)
  {}

  lemma LastOfSuffix<T>(a: seq<T>, b: seq<T>, n: nat)
    requires IsSuffix(a, b)
    ensures IsSuffix(Last(a, n), b)
    ensures |a| >= n || |a| == |b| ==> Last(a, n) == Last(b, n)
  {}

  lemma LastThenMore<T>(a: seq<T>, b: seq<T>, n: nat)
    ensures IsSuffix(Last(a, n) + b, a + b)
  {
    var cut := |a| - |Last(a, n)|;
    assert Last(a, n) + b == (a + b)[cut..];
  }

  lemma LastOfLast<T>(a: seq<T>, b: seq<T>, n: nat)
    ensures Last(Last(a, n) + b, n) == Last(a + b, n)
  {
    LastThenMore(a, b, n);
    LastOfSuffix(Last(a, n) + b, a + b, n);
  }

  lemma LastOfConcat<T>(a: seq<T>, b: seq<T>, n: nat)
    ensures Last(a + b, n) == Last(a, if |b| <= n then n - |b| else 0) + Last(b, n)
  {}

  /** The elements of `s` whose flag in `keep` is set, in order. */
  function Select<T>(s: seq<T>, keep: seq<bool>): seq<T>
    requires |s| == |keep|
  {
    if s == [] then [] else (if keep[0] then [s[0]] else []) + Select(s[1..], keep[1..])
  }

  lemma SelectFirst<T>(x: T, s: seq<T>, k: bool, keep: seq<bool>)
    requires |s| == |keep|
    ensures Select([x] + s, [k] + keep) == (if k then [x] else []) + Select(s, keep)
  {
    assert ([x] + s)[1..] == s && ([k] + keep)[1..] == keep;
  }

  lemma {:induction false} SelectConcat<T>(a: seq<T>, b: seq<T>, ka: seq<bool>, kb: seq<bool>)
    requires |a| == |ka| && |b| == |kb|
    ensures Select(a + b, ka + kb) == Select(a, ka) + Select(b, kb)
  {
    if a == [] {
      assert a + b == b && ka + kb == kb;
    } else {
      assert (a + b)[1..] == a[1..] + b && (ka + kb)[1..] == ka[1..] + kb;
      SelectConcat(a[1..], b, ka[1..], kb);
      Associative(if ka[0] then [a[0]] else [], Select(a[1..], ka[1..]), Select(b, kb));
    }
  }

  function Map<T, U>(f: T -> U, s: seq<T>): (r: seq<U>)
    ensures |r| == |s|
    ensures forall i :: 0 <= i < |s| ==> r[i] == f(s[i])
  {
    if s == [] then [] else [f(s[0])] + Map(f, s[1..])
  }

  lemma MapConcat<T, U>(f: T -> U, a: seq<T>, b: seq<T>)
    ensures Map(f, a + b) == Map(f, a) + Map(f, b)
  {}

  lemma MapPrefix<T, U>(f: T -> U, s: seq<T>, i: nat)
    requires i <= |s|
    ensures Map(f, s[..i]) == Map(f, s)[..i]
  {}

  lemma {:induction false} SelectMap<T, U>(f: T -> U, s: seq<T>, keep: seq<bool>)
    requires |s| == |keep|
    ensures Select(Map(f, s), keep) == Map(f, Select(s, keep))
  {
    if s != [] {
      SelectMap(f, s[1..], keep[1..]);
      var kept := Select(s[1..], keep[1..]);
      assert ([s[0]] + kept)[1..] == kept;
    }
  }

  function Filter<T>(p: T -> bool, s: seq<T>): seq<T> {
    if s == [] then [] else (if p(s[0]) then [s[0]] else []) + Filter(p, s[1..])
  }

  function Pick<T>(p: T -> bool, x: T): seq<T> { if p(x) then [x] else [] }

  lemma FilterFirst<T>(p: T -> bool, x: T, s: seq<T>)
    ensures Filter(p, [x] + s) == Pick(p, x) + Filter(p, s)
  {
    assert ([x] + s)[1..] == s;
  }

  lemma FilterOne<T>(p: T -> bool, x: T)
    ensures Filter(p, [x]) == Pick(p, x)
  {
    assert [x][1..] == [];
  }

  lemma {:induction false} FilterNothing<T>(p: T -> bool, s: seq<T>)
    requires forall i :: 0 <= i < |s| ==> !p(s[i])
    ensures Filter(p, s) == []
  {
    if s != [] { FilterNothing(p, s[1..]); }
  }

  lemma {:induction false} FilterOnlyAt<T>(p: T -> bool, s: seq<T>, i: nat)
    requires i < |s| && forall j :: 0 <= j < |s| ==> (p(s[j]) <==> j == i)
    ensures Filter(p, s) == [s[i]]
  {
    if i == 0 {
      FilterNothing(p, s[1..]);
    } else {
      FilterOnlyAt(p, s[1..], i - 1);
    }
  }

  lemma {:induction false} FilterConcat<T>(p: T -> bool, a: seq<T>, b: seq<T>)
    ensures Filter(p, a + b) == Filter(p, a) + Filter(p, b)
  {
    if a == [] {
      assert a + b == b;
    } else {
      assert (a + b)[1..] == a[1..] + b;
      FilterConcat(p, a[1..], b);
      var head := if p(a[0]) then [a[0]] else [];
      assert head + (Filter(p, a[1..]) + Filter(p, b)) == head + Filter(p, a[1..]) + Filter(p, b);
    }
  }

  /** How many flags are set. */
  function Count(flags: seq<bool>): nat {
    if flags == [] then 0 else (if flags[0] then 1 else 0) + Count(flags[1..])
  }

  lemma {:induction false} CountNone(flags: seq<bool>)
    requires forall i :: 0 <= i < |flags| ==> !flags[i]
    ensures Count(flags) == 0
  {
    if flags != [] { CountNone(flags[1..]); }
  }
}
