/**
 The fallback splitter and the chunk ids of IngestionService
 (contexts/ingestion/services.py, lines 24-27 and 40-46).
 */
module Chunking {

  /** `max(1, size - overlap)` */
  function Step(size: int, overlap: int): (r: nat)
    ensures r >= 1
  {
    if size - overlap >= 1 then size - overlap else 1
  }

  /** `text[i:i + size]` for an index inside the text. */
  function Slice<T>(text: seq<T>, i: nat, size: nat): seq<T>
    requires i <= |text|
  {
    if i + size <= |text| then text[i..i + size] else text[i..]
  }

  /** `[text[i:i + size] for i in range(start, len(text), step)]` */
  function SplitFrom<T>(text: seq<T>, start: nat, size: nat, step: nat): seq<seq<T>>
    requires step >= 1
    decreases |text| - start
  {
    if start >= |text| then [] else [Slice(text, start, size)] + SplitFrom(text, start + step, size, step)
  }

  function Split<T>(text: seq<T>, size: nat, overlap: int): seq<seq<T>> {
    SplitFrom(text, 0, size, Step(size, overlap))
  }

  /** `chunk[:n]` */
  function Head<T>(chunk: seq<T>, n: nat): seq<T> {
    if |chunk| <= n then chunk else chunk[..n]
  }

  /** The first `n` elements of every chunk, joined. */
  function JoinHeads<T>(chunks: seq<seq<T>>, n: nat): seq<T> {
    if chunks == [] then [] else Head(chunks[0], n) + JoinHeads(chunks[1..], n)
  }

  /** `c` is `n / d` rounded up. */
  ghost predicate IsCeiling(c: nat, n: nat, d: nat) { (c - 1) * d < n <= c * d }

  lemma {:induction false} ChunkCount<T>(text: seq<T>, start: nat, size: nat, step: nat)
    requires step >= 1 && start <= |text|
    ensures IsCeiling(|SplitFrom(text, start, size, step)|, |text| - start, step)
    decreases |text| - start
  {
    if start + step < |text| {
      ChunkCount(text, start + step, size, step);
      var c := |SplitFrom(text, start + step, size, step)|;
      assert (c - 1) * step == c * step - step && (c + 1) * step == c * step + step;
    } else if start < |text| {
      assert SplitFrom(text, start + step, size, step) == [];
    }
  }

  lemma HeadThenRest<T>(text: seq<T>, start: nat, size: nat, step: nat)
    requires 1 <= step <= size && start < |text|
    ensures Head(Slice(text, start, size), step) + (if start + step <= |text| then text[start + step..] else [])
         == text[start..]
  {
    if start + step <= |text| {
      assert text[start..] == text[start..start + step] + text[start + step..];
      assert Head(Slice(text, start, size), step) == text[start..start + step];
    }
  }

  lemma {:induction false} HeadsRejoin<T>(text: seq<T>, start: nat, size: nat, step: nat)
    requires 1 <= step <= size && start <= |text|
    ensures JoinHeads(SplitFrom(text, start, size, step), step) == text[start..]
    decreases |text| - start
  {
    if start < |text| {
      HeadThenRest(text, start, size, step);
      var first, rest := Slice(text, start, size), SplitFrom(text, start + step, size, step);
      assert JoinHeads([first] + rest, step) == Head(first, step) + JoinHeads(rest, step) by {
        assert ([first] + rest)[1..] == rest;
      }
      if start + step <= |text| {
        HeadsRejoin(text, start + step, size, step);
      } else {
        assert rest == [];
      }
    }
  }

  lemma {:induction false} HeadsLength<T>(text: seq<T>, start: nat, size: nat, step: nat)
    requires step >= 1 && start <= |text|
    ensures |JoinHeads(SplitFrom(text, start, size, step), step)| <= |text| - start
    decreases |text| - start
  {
    if start < |text| {
      var rest := SplitFrom(text, start + step, size, step);
      assert SplitFrom(text, start, size, step)[1..] == rest;
      if start + step <= |text| {
        HeadsLength(text, start + step, size, step);
      } else {
        assert rest == [];
      }
    }
  }

  /**
   Joining the first `step` characters of every chunk gives back the text,
   exactly when the chunks do not leave gaps (which a non-negative overlap and a
   positive size guarantee) or a single chunk holds everything.
   */
  lemma SplitLosesNothing<T>(text: seq<T>, size: nat, overlap: int)
    ensures var step := Step(size, overlap);
      JoinHeads(Split(text, size, overlap), step) == text <==> step <= size || |text| <= size
    ensures size >= 1 && overlap >= 0 ==> Step(size, overlap) <= size
    ensures IsCeiling(|Split(text, size, overlap)|, |text|, Step(size, overlap))
  {
    var step := Step(size, overlap);
    ChunkCount(text, 0, size, step);
    var chunks := Split(text, size, overlap);
    if step <= size {
      HeadsRejoin(text, 0, size, step);
      assert text[0..] == text;
    } else if text != [] {
      var rest := SplitFrom(text, step, size, step);
      assert chunks[1..] == rest;
      if step <= |text| {
        HeadsLength(text, step, size, step);
      } else {
        assert rest == [];
      }
    }
  }

  /** Where chunk `j` starts: `start + j * step`, by repeated addition. */
  function StartOf(start: nat, step: nat, j: nat): nat
    decreases j
  {
    if j == 0 then start else StartOf(start + step, step, j - 1)
  }

  lemma {:induction false} StartsAfter(start: nat, step: nat, j: nat)
    requires j >= 1
    ensures StartOf(start, step, j) >= start + step
    decreases j
  {
    if j > 1 { StartsAfter(start + step, step, j - 1); }
  }

  lemma {:induction false} StartIsProduct(start: nat, step: nat, j: nat)
    ensures StartOf(start, step, j) == start + j * step
    decreases j
  {
    if j > 0 {
      StartIsProduct(start + step, step, j - 1);
      assert j * step == (j - 1) * step + step;
    }
  }

  lemma {:induction false} ChunkAt<T>(text: seq<T>, start: nat, size: nat, step: nat, j: nat)
    requires step >= 1 && j < |SplitFrom(text, start, size, step)|
    ensures StartOf(start, step, j) < |text|
    ensures SplitFrom(text, start, size, step)[j] == Slice(text, StartOf(start, step, j), size)
    decreases j
  {
    if j > 0 { ChunkAt(text, start + step, size, step, j - 1); }
  }

  /** The window [w, w + n) of the text lies inside the chunk that starts at `at`. */
  ghost predicate Inside<T>(text: seq<T>, w: nat, n: nat, at: nat, chunk: seq<T>)
    requires w + n <= |text|
  {
    at <= w && w + n <= at + |chunk| && chunk[w - at..w - at + n] == text[w..w + n]
  }

  lemma InsideSlice<T>(text: seq<T>, w: nat, n: nat, at: nat, size: nat)
    requires at <= w && w + n <= |text| && w + n <= at + size
    ensures Inside(text, w, n, at, Slice(text, at, size))
  {
    var chunk := Slice(text, at, size);
    var a, b := chunk[w - at..w - at + n], text[w..w + n];
    forall k | 0 <= k < n ensures a[k] == b[k] {
      assert a[k] == chunk[w - at + k] && b[k] == text[w + k];
    }
  }

  lemma {:induction false} WindowFrom<T>(text: seq<T>, start: nat, size: nat, step: nat, w: nat, n: nat)
    returns (j: nat)
    requires 1 <= step <= size && start <= w && w + n <= |text| && 1 <= n <= size - step + 1
    ensures j < |SplitFrom(text, start, size, step)|
    ensures Inside(text, w, n, StartOf(start, step, j), SplitFrom(text, start, size, step)[j])
    decreases |text| - start
  {
    if w < start + step {
      j := 0;
      InsideSlice(text, w, n, start, size);
    } else {
      var k := WindowFrom(text, start + step, size, step, w, n);
      j := k + 1;
    }
  }

  /** Every window of at most `overlap + 1` characters lies inside one chunk. */
  lemma WindowsSurvive<T>(text: seq<T>, size: nat, overlap: nat, w: nat, n: nat) returns (j: nat)
    requires overlap < size && w + n <= |text| && 1 <= n <= overlap + 1
    ensures j < |Split(text, size, overlap)|
    ensures Inside(text, w, n, StartOf(0, size - overlap, j), Split(text, size, overlap)[j])
  {
    j := WindowFrom(text, 0, size, size - overlap, w, n);
  }

  /** One character more is too many: the window that starts just before the
      second chunk does not fit in any chunk. */
  lemma LongerWindowsAreCut<T>(text: seq<T>, size: nat, overlap: nat, j: nat)
    requires overlap < size < |text| && j < |Split(text, size, overlap)|
    ensures !Inside(text, size - overlap - 1, overlap + 2, StartOf(0, size - overlap, j), Split(text, size, overlap)[j])
  {
    ChunkAt(text, 0, size, size - overlap, j);
    if j >= 1 { StartsAfter(0, size - overlap, j); }
  }

  // ---------- the ids of one ingestion ----------

  /** `str(i)` for a natural number. */
  function Decimal(n: nat): (r: string)
    ensures r != [] && forall i :: 0 <= i < |r| ==> '0' <= r[i] <= '9'
  {
    if n < 10 then ['0' + n as char] else Decimal(n / 10) + ['0' + (n % 10) as char]
  }

  lemma {:induction false} DecimalInjective(m: nat, n: nat)
    requires Decimal(m) == Decimal(n)
    ensures m == n
    decreases m
  {
    var dm, dn := Decimal(m), Decimal(n);
    assert dm[|dm| - 1] == '0' + (m % 10) as char;
    assert dn[|dn| - 1] == '0' + (n % 10) as char;
    if m >= 10 && n >= 10 {
      assert dm[..|dm| - 1] == Decimal(m / 10) && dn[..|dn| - 1] == Decimal(n / 10);
      DecimalInjective(m / 10, n / 10);
    }
  }

  /** `f"{request_id}-{i}-{uuid4().hex[:8]}"` */
  function ChunkId(request: string, i: nat, hex: string): string
    requires |hex| == 8
  {
    request + "-" + Decimal(i) + "-" + hex
  }

  /** Requests whose ids are equally long never share a chunk id. */
  lemma RequestsShareNoId(r1: string, r2: string, i: nat, j: nat, h1: string, h2: string)
    requires |h1| == 8 && |h2| == 8 && |r1| == |r2| && r1 != r2
    ensures ChunkId(r1, i, h1) != ChunkId(r2, j, h2)
  {
    var a, b := ChunkId(r1, i, h1), ChunkId(r2, j, h2);
    assert a[..|r1|] == r1 && b[..|r2|] == r2;
  }

  /** The ids of one ingestion are distinct whatever the random parts are. */
  lemma ChunkIdsDiffer(request: string, i: nat, j: nat, h1: string, h2: string)
    requires |h1| == 8 && |h2| == 8 && i != j
    ensures ChunkId(request, i, h1) != ChunkId(request, j, h2)
  {
    var a, b := ChunkId(request, i, h1), ChunkId(request, j, h2);
    if a == b {
      assert a[|request| + 1..|a| - 9] == Decimal(i);
      assert b[|request| + 1..|b| - 9] == Decimal(j);
      DecimalInjective(i, j);
    }
  }
}
