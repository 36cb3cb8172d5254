/**
 The in-memory document store (app/storage.py, lines 124-164): an ordered map
 with move-to-end on write and eviction from the front.
 */
module MemoryStore {
  import opened Collections

  datatype Doc = Doc(id: string, text: string)

  /** The keys of an ordered map are distinct. */
  ghost predicate Distinct(docs: seq<Doc>) {
    forall i, j :: 0 <= i < j < |docs| ==> docs[i].id != docs[j].id
  }

  ghost predicate Has(docs: seq<Doc>, id: string) { exists d :: d in docs && d.id == id }

  ghost function Ids(docs: seq<Doc>): set<string> { set d | d in docs :: d.id }

  function Without(docs: seq<Doc>, id: string): (r: seq<Doc>)
    ensures |r| <= |docs|
  {
    if docs == [] then [] else
      (if docs[0].id == id then [] else [docs[0]]) + Without(docs[1..], id)
  }

  /** Writing a document makes it the most recent one. */
  function Write(docs: seq<Doc>, d: Doc): seq<Doc> { Without(docs, d.id) + [d] }

  function WriteAll(docs: seq<Doc>, limit: nat, ds: seq<Doc>): seq<Doc>
    decreases ds
  {
    if ds == [] then docs else WriteAll(Last(Write(docs, ds[0]), limit), limit, ds[1..])
  }

  function RemoveAll(docs: seq<Doc>, ids: seq<string>): seq<Doc>
    decreases ids
  {
    if ids == [] then docs else RemoveAll(Without(docs, ids[0]), ids[1..])
  }

  /** `zip(ids, documents)`: the shorter argument decides the length. */
  function Zip(ids: seq<string>, texts: seq<string>): (r: seq<Doc>)
    ensures |r| == if |ids| <= |texts| then |ids| else |texts|
    ensures forall i :: 0 <= i < |r| ==> r[i] == Doc(ids[i], texts[i])
  {
    if ids == [] || texts == [] then [] else [Doc(ids[0], texts[0])] + Zip(ids[1..], texts[1..])
  }

  lemma {:induction false} WithoutMembers(docs: seq<Doc>, id: string)
    ensures forall d :: d in Without(docs, id) <==> d in docs && d.id != id
  {
    if docs != [] {
      WithoutMembers(docs[1..], id);
      assert docs == [docs[0]] + docs[1..];
    }
  }

  lemma {:induction false} WithoutAbsent(docs: seq<Doc>, id: string)
    requires !Has(docs, id)
    ensures Without(docs, id) == docs
  {
    if docs != [] {
      assert docs[0] in docs;
      assert forall d :: d in docs[1..] ==> d in docs;
      WithoutAbsent(docs[1..], id);
    }
  }

  /** Cutting an ordered map at the position of a key drops exactly that key. */
  lemma {:induction false} CutAtKey(docs: seq<Doc>, i: nat, id: string)
    requires Distinct(docs) && i < |docs| && docs[i].id == id
    ensures Without(docs, id) == docs[..i] + docs[i + 1..]
  {
    if i == 0 {
      assert !Has(docs[1..], id);
      WithoutAbsent(docs[1..], id);
    } else {
      CutAtKey(docs[1..], i - 1, id);
    }
  }

  lemma CutDistinct(docs: seq<Doc>, i: nat)
    requires Distinct(docs) && i < |docs|
    ensures Distinct(docs[..i] + docs[i + 1..])
  {}

  lemma WithoutFacts(docs: seq<Doc>, id: string)
    requires Distinct(docs)
    ensures Distinct(Without(docs, id))
    ensures forall d :: d in Without(docs, id) <==> d in docs && d.id != id
    ensures |Without(docs, id)| == |docs| - if Has(docs, id) then 1 else 0
    ensures !Has(docs, id) ==> Without(docs, id) == docs
  {
    WithoutMembers(docs, id);
    if Has(docs, id) {
      var i :| 0 <= i < |docs| && docs[i].id == id;
      CutAtKey(docs, i, id);
      CutDistinct(docs, i);
    } else {
      WithoutAbsent(docs, id);
    }
  }

  lemma {:induction false} WithoutConcat(a: seq<Doc>, b: seq<Doc>, id: string)
    ensures Without(a + b, id) == Without(a, id) + Without(b, id)
  {
    if a == [] {
      assert a + b == b;
    } else {
      assert (a + b)[1..] == a[1..] + b;
      WithoutConcat(a[1..], b, id);
    }
  }

  lemma WriteFacts(docs: seq<Doc>, d: Doc)
    requires Distinct(docs)
    ensures Distinct(Write(docs, d))
    ensures forall e :: e in Write(docs, d) <==> e == d || (e in docs && e.id != d.id)
    ensures |Write(docs, d)| == |docs| + if Has(docs, d.id) then 0 else 1
  {
    WithoutFacts(docs, d.id);
  }

  // ---------- the class ----------

  lemma AssignAndMove(docs: seq<Doc>, i: nat, d: Doc)
    requires Distinct(docs) && i <= |docs|
    requires forall j :: 0 <= j < i ==> docs[j].id != d.id
    requires i < |docs| ==> docs[i].id == d.id
    ensures var updated := if i < |docs| then docs[i := d] else docs + [d];
      updated[..i] + updated[i + 1..] + [d] == Write(docs, d)
  {
    if i < |docs| {
      CutAtKey(docs, i, d.id);
    } else {
      WithoutAbsent(docs, d.id);
    }
  }

  lemma SuffixMembers(b: seq<Doc>, u: seq<Doc>)
    requires Distinct(u) && IsSuffix(b, u)
    ensures Distinct(b)
    ensures forall id :: Has(b, id) ==> Has(u, id)
  {
    var k := |u| - |b|;
    assert forall i :: 0 <= i < |b| ==> b[i] == u[k + i];
  }

  class RetrievalStore {
    const limit: nat
    const vectorEnabled: bool
    const searchEnabled: bool
    var documents: seq<Doc>

    ghost predicate Valid() reads this {
      limit >= 1 && Distinct(documents) && |documents| <= limit
    }

    /** `_positive_int` raises a configured limit below one to one. */
    constructor (configured: int, vectorEnabled: bool, searchEnabled: bool)
      ensures Valid() && documents == []
      ensures limit == if configured >= 1 then configured else 1
      ensures this.vectorEnabled == vectorEnabled && this.searchEnabled == searchEnabled
    {
      limit := if configured >= 1 then configured else 1;
      this.vectorEnabled, this.searchEnabled := vectorEnabled, searchEnabled;
      documents := [];
    }

    /** The position of a key, or the size of the map. */
    method Find(id: string) returns (i: nat)
      ensures i <= |documents|
      ensures forall j :: 0 <= j < i ==> documents[j].id != id
      ensures i < |documents| ==> documents[i].id == id
    {
      i := 0;
      while i < |documents|
        invariant i <= |documents|
        invariant forall j :: 0 <= j < i ==> documents[j].id != id
      {
        if documents[i].id == id { return; }
        i := i + 1;
      }
    }

    /** The eviction loop: `popitem(last=False)` while over the limit. */
    method Evict()
      modifies this`documents
      ensures documents == Last(old(documents), limit)
    {
      while |documents| > limit
        invariant IsSuffix(documents, old(documents))
        invariant |documents| >= limit || documents == old(documents)
      {
        SuffixTail(documents, old(documents));
        documents := documents[1..];
      }
    }

    /** `self._documents[doc_id] = document` and `move_to_end(doc_id)`. */
    method Assign(d: Doc)
      requires Distinct(documents)
      modifies this`documents
      ensures documents == Write(old(documents), d)
    {
      var i := Find(d.id);
      AssignAndMove(documents, i, d);
      documents := if i < |documents| then documents[i := d] else documents + [d];
      documents := documents[..i] + documents[i + 1..] + [d];
    }

    /** One turn of the loop in `_remember`. */
    method Store(d: Doc)
      requires Valid()
      modifies this`documents
      ensures Valid()
      ensures documents == Last(Write(old(documents), d), limit)
    {
      WriteFacts(documents, d);
      SuffixMembers(Last(Write(documents, d), limit), Write(documents, d));
      Assign(d);
      Evict();
    }

    method Remember(ids: seq<string>, texts: seq<string>)
      requires Valid()
      modifies this`documents
      ensures Valid()
      ensures documents == if vectorEnabled || searchEnabled then old(documents)
                           else WriteAll(old(documents), limit, Zip(ids, texts))
    {
      if vectorEnabled || searchEnabled { return; }
      var pairs := Zip(ids, texts);
      var n := 0;
      while n < |pairs|
        invariant n <= |pairs|
        invariant Valid()
        invariant WriteAll(documents, limit, pairs[n..]) == WriteAll(old(documents), limit, pairs)
      {
        Store(pairs[n]);
        assert pairs[n..][1..] == pairs[n + 1..];
        n := n + 1;
      }
    }

    method Remove(ids: seq<string>)
      requires Valid()
      modifies this`documents
      ensures Valid()
      ensures documents == RemoveAll(old(documents), ids)
    {
      var n := 0;
      while n < |ids|
        invariant n <= |ids|
        invariant Valid()
        invariant RemoveAll(documents, ids[n..]) == RemoveAll(old(documents), ids)
      {
        var i := Find(ids[n]);
        WithoutFacts(documents, ids[n]);
        if i < |documents| {
          CutAtKey(documents, i, ids[n]);
          documents := documents[..i] + documents[i + 1..];
        }
        assert ids[n..][1..] == ids[n + 1..];
        n := n + 1;
      }
    }
  }

  // ---------- the store is the recent end of one that never evicts ----------

  datatype Op = Add(docs: seq<Doc>) | Remove(ids: seq<string>)

  function Bounded(docs: seq<Doc>, limit: nat, ops: seq<Op>): seq<Doc>
    decreases ops
  {
    if ops == [] then docs else
      match ops[0]
      case Add(ds) => Bounded(WriteAll(docs, limit, ds), limit, ops[1..])
      case Remove(ids) => Bounded(RemoveAll(docs, ids), limit, ops[1..])
  }

  /** A plain ordered map: the same operations without the eviction loop. */
  function Record(docs: seq<Doc>, ds: seq<Doc>): seq<Doc>
    decreases ds
  {
    if ds == [] then docs else Record(Write(docs, ds[0]), ds[1..])
  }

  function Unbounded(docs: seq<Doc>, ops: seq<Op>): seq<Doc>
    decreases ops
  {
    if ops == [] then docs else
      match ops[0]
      case Add(ds) => Unbounded(Record(docs, ds), ops[1..])
      case Remove(ids) => Unbounded(RemoveAll(docs, ids), ops[1..])
  }

  lemma SuffixWithout(b: seq<Doc>, u: seq<Doc>, id: string)
    requires IsSuffix(b, u)
    ensures IsSuffix(Without(b, id), Without(u, id))
  {
    var front := u[..|u| - |b|];
    assert u == front + b;
    WithoutConcat(front, b, id);
  }

  /** `b` is a suffix of `u`, within the limit; with `full`, as long as it can be. */
  ghost predicate Simulates(b: seq<Doc>, u: seq<Doc>, limit: nat, full: bool) {
    && Distinct(u) && IsSuffix(b, u) && |b| <= limit
    && (full ==> b == Last(u, limit))
  }

  lemma WriteSimulates(b: seq<Doc>, u: seq<Doc>, limit: nat, full: bool, d: Doc)
    requires limit >= 1 && Simulates(b, u, limit, full)
    ensures Simulates(Last(Write(b, d), limit), Write(u, d), limit, full)
  {
    SuffixMembers(b, u);
    SuffixWithout(b, u, d.id);
    WriteFacts(u, d);
    assert |Write(b, d)| >= limit || !full || |Write(b, d)| == |Write(u, d)| by { WriteFacts(b, d); }
    LastOfSuffix(Write(b, d), Write(u, d), limit);
  }

  lemma {:induction false} AddSimulates(b: seq<Doc>, u: seq<Doc>, limit: nat, full: bool, ds: seq<Doc>)
    requires limit >= 1 && Simulates(b, u, limit, full)
    ensures Simulates(WriteAll(b, limit, ds), Record(u, ds), limit, full)
    decreases ds
  {
    if ds != [] {
      WriteSimulates(b, u, limit, full, ds[0]);
      AddSimulates(Last(Write(b, ds[0]), limit), Write(u, ds[0]), limit, full, ds[1..]);
    }
  }

  lemma {:induction false} RemoveSimulates(b: seq<Doc>, u: seq<Doc>, limit: nat, ids: seq<string>)
    requires Simulates(b, u, limit, false)
    ensures Simulates(RemoveAll(b, ids), RemoveAll(u, ids), limit, false)
    decreases ids
  {
    if ids != [] {
      SuffixWithout(b, u, ids[0]);
      WithoutFacts(u, ids[0]);
      RemoveSimulates(Without(b, ids[0]), Without(u, ids[0]), limit, ids[1..]);
    }
  }

  lemma {:induction false} OpsSimulate(b: seq<Doc>, u: seq<Doc>, limit: nat, full: bool, ops: seq<Op>)
    requires limit >= 1 && Simulates(b, u, limit, full)
    requires full ==> forall op :: op in ops ==> op.Add?
    ensures Simulates(Bounded(b, limit, ops), Unbounded(u, ops), limit, full)
    decreases ops
  {
    if ops != [] {
      assert ops[0] in ops;
      match ops[0]
      case Add(ds) =>
        AddSimulates(b, u, limit, full, ds);
        OpsSimulate(WriteAll(b, limit, ds), Record(u, ds), limit, full, ops[1..]);
      case Remove(ids) =>
        RemoveSimulates(b, u, limit, ids);
        OpsSimulate(RemoveAll(b, ids), RemoveAll(u, ids), limit, false, ops[1..]);
    }
  }

  /** Under any adds and removes the store is a suffix, in the same order and with
      the same texts, of the store that never evicts, and never over its limit. */
  lemma StoreIsASuffix(limit: nat, ops: seq<Op>)
    requires limit >= 1
    ensures IsSuffix(Bounded([], limit, ops), Unbounded([], ops))
    ensures |Bounded([], limit, ops)| <= limit
  {
    OpsSimulate([], [], limit, false, ops);
  }

  ghost function Written(ops: seq<Op>): set<string> {
    set op, d | op in ops && op.Add? && d in op.docs :: d.id
  }

  lemma {:induction false} RecordIds(u: seq<Doc>, ds: seq<Doc>)
    requires Distinct(u)
    ensures Distinct(Record(u, ds)) && Ids(Record(u, ds)) == Ids(u) + set d | d in ds :: d.id
    decreases ds
  {
    if ds != [] {
      var w := Write(u, ds[0]);
      WriteFacts(u, ds[0]);
      RecordIds(w, ds[1..]);
      assert ds == [ds[0]] + ds[1..];
      forall id | id in Ids(u) ensures id in Ids(w) {
        var d :| d in u && d.id == id;
        if id == ds[0].id { assert ds[0] in w; } else { assert d in w; }
      }
      assert ds[0] in w;
      assert Ids(w) == Ids(u) + {ds[0].id};
    }
  }

  lemma {:induction false} UnboundedIds(u: seq<Doc>, ops: seq<Op>)
    requires Distinct(u) && forall op :: op in ops ==> op.Add?
    ensures Distinct(Unbounded(u, ops)) && Ids(Unbounded(u, ops)) == Ids(u) + Written(ops)
    decreases ops
  {
    if ops != [] {
      var ds := ops[0].docs;
      RecordIds(u, ds);
      UnboundedIds(Record(u, ds), ops[1..]);
      assert ops == [ops[0]] + ops[1..];
      assert Written(ops) == (set d | d in ds :: d.id) + Written(ops[1..]);
    }
  }

  lemma {:induction false} DistinctSize(docs: seq<Doc>)
    requires Distinct(docs)
    ensures |Ids(docs)| == |docs|
  {
    if docs != [] {
      DistinctSize(docs[1..]);
      assert docs == [docs[0]] + docs[1..];
      assert Ids(docs) == {docs[0].id} + Ids(docs[1..]);
    }
  }

  /** Without removes the store holds exactly the `limit` most recently written
      ids: min(limit, distinct ids written) documents. */
  lemma WithoutRemovesTheStoreIsFull(limit: nat, ops: seq<Op>)
    requires limit >= 1 && forall op :: op in ops ==> op.Add?
    ensures Bounded([], limit, ops) == Last(Unbounded([], ops), limit)
    ensures |Bounded([], limit, ops)| == if |Written(ops)| <= limit then |Written(ops)| else limit
  {
    OpsSimulate([], [], limit, true, ops);
    UnboundedIds([], ops);
    DistinctSize(Unbounded([], ops));
  }

  // ---------- rolling back an ingestion ----------

  /** `chunks` are new to the store and distinct, as the ids of one ingestion are. */
  ghost predicate FreshFor(docs: seq<Doc>, chunks: seq<Doc>) {
    Distinct(docs + chunks)
  }

  lemma HeadIsFresh(docs: seq<Doc>, ds: seq<Doc>)
    requires FreshFor(docs, ds) && ds != []
    ensures !Has(docs, ds[0].id)
  {
    var all := docs + ds;
    assert all[|docs|] == ds[0];
    forall d | d in docs ensures d.id != ds[0].id {
      var i :| 0 <= i < |docs| && docs[i] == d;
      assert all[i] == d;
    }
  }

  lemma FreshTail(docs: seq<Doc>, limit: nat, ds: seq<Doc>)
    requires FreshFor(docs, ds) && ds != []
    ensures FreshFor(Last(docs + [ds[0]], limit), ds[1..])
  {
    assert docs + ds == docs + [ds[0]] + ds[1..];
    LastThenMore(docs + [ds[0]], ds[1..], limit);
    SuffixMembers(Last(docs + [ds[0]], limit) + ds[1..], docs + ds);
  }

  lemma {:induction false} FreshWrites(docs: seq<Doc>, limit: nat, ds: seq<Doc>)
    requires limit >= 1 && |docs| <= limit && FreshFor(docs, ds)
    ensures WriteAll(docs, limit, ds) == Last(docs + ds, limit)
    decreases ds
  {
    if ds == [] {
      assert docs + ds == docs;
    } else {
      HeadIsFresh(docs, ds);
      WithoutAbsent(docs, ds[0].id);
      FreshTail(docs, limit, ds);
      FreshWrites(Last(docs + [ds[0]], limit), limit, ds[1..]);
      LastOfLast(docs + [ds[0]], ds[1..], limit);
      assert docs + [ds[0]] + ds[1..] == docs + ds;
    }
  }

  lemma {:induction false} RemoveAllFacts(docs: seq<Doc>, ids: seq<string>)
    requires Distinct(docs)
    ensures Distinct(RemoveAll(docs, ids))
    ensures forall d :: d in RemoveAll(docs, ids) <==> d in docs && d.id !in ids
    ensures (forall d :: d in docs ==> d.id !in ids) ==> RemoveAll(docs, ids) == docs
    decreases ids
  {
    if ids != [] {
      WithoutFacts(docs, ids[0]);
      RemoveAllFacts(Without(docs, ids[0]), ids[1..]);
      assert ids == [ids[0]] + ids[1..];
      if forall d :: d in docs ==> d.id !in ids {
        assert !Has(docs, ids[0]);
      }
    }
  }

  lemma {:induction false} RemoveAllConcat(a: seq<Doc>, b: seq<Doc>, ids: seq<string>)
    ensures RemoveAll(a + b, ids) == RemoveAll(a, ids) + RemoveAll(b, ids)
    decreases ids
  {
    if ids != [] {
      WithoutConcat(a, b, ids[0]);
      RemoveAllConcat(Without(a, ids[0]), Without(b, ids[0]), ids[1..]);
    }
  }

  function IdsOf(ds: seq<Doc>): (r: seq<string>)
    ensures |r| == |ds| && forall i :: 0 <= i < |ds| ==> r[i] == ds[i].id
  {
    seq(|ds|, i requires 0 <= i < |ds| => ds[i].id)
  }

  function Max(a: int, b: int): int { if a <= b then b else a }

  lemma ChunksDistinct(docs: seq<Doc>, chunks: seq<Doc>)
    requires FreshFor(docs, chunks)
    ensures Distinct(chunks)
  {
    var all := docs + chunks;
    assert forall i :: 0 <= i < |chunks| ==> all[|docs| + i] == chunks[i];
  }

  lemma KeptUntouched(docs: seq<Doc>, chunks: seq<Doc>, kept: seq<Doc>)
    requires FreshFor(docs, chunks) && IsSuffix(kept, docs)
    ensures RemoveAll(kept, IdsOf(chunks)) == kept
  {
    var all, k := docs + chunks, |docs| - |kept|;
    assert forall i :: 0 <= i < |kept| ==> kept[i] == all[k + i];
    forall d | d in kept ensures d.id !in IdsOf(chunks) {
      var i :| 0 <= i < |kept| && kept[i] == d;
      forall j | 0 <= j < |chunks| ensures chunks[j].id != d.id {
        assert all[|docs| + j] == chunks[j];
      }
    }
    RemoveAllFacts(kept, IdsOf(chunks));
  }

  lemma FirstIsIn(docs: seq<Doc>)
    ensures docs == [] || docs[0] in docs
  {}

  lemma AddedGone(chunks: seq<Doc>, added: seq<Doc>)
    requires Distinct(chunks) && IsSuffix(added, chunks)
    ensures RemoveAll(added, IdsOf(chunks)) == []
  {
    var k := |chunks| - |added|;
    assert forall i :: 0 <= i < |added| ==> added[i] == chunks[k + i] && IdsOf(chunks)[k + i] == added[i].id;
    assert forall d :: d in added ==> d.id in IdsOf(chunks);
    RemoveAllFacts(added, IdsOf(chunks));
    FirstIsIn(RemoveAll(added, IdsOf(chunks)));
  }

  /**
   An ingestion that is rolled back leaves none of its chunks, and exactly the
   last max(0, limit - k) earlier documents in their old order: what it evicted
   stays evicted.
   */
  lemma RollbackKeepsTheRecentEnd(docs: seq<Doc>, limit: nat, chunks: seq<Doc>)
    requires limit >= 1 && |docs| <= limit && FreshFor(docs, chunks)
    ensures RemoveAll(WriteAll(docs, limit, chunks), IdsOf(chunks)) == Last(docs, Max(0, limit - |chunks|))
  {
    var kept := Last(docs, Max(0, limit - |chunks|));
    var added := Last(chunks, limit);
    assert WriteAll(docs, limit, chunks) == kept + added by {
      FreshWrites(docs, limit, chunks);
      LastOfConcat(docs, chunks, limit);
    }
    RemoveAllConcat(kept, added, IdsOf(chunks));
    assert RemoveAll(kept, IdsOf(chunks)) == kept by {
      KeptUntouched(docs, chunks, kept);
    }
    assert RemoveAll(added, IdsOf(chunks)) == [] by {
      ChunksDistinct(docs, chunks);
      AddedGone(chunks, added);
    }
  }

  /** The rollback restores the store exactly when nothing had to be evicted. */
  lemma RollbackRestoresIffItFitted(docs: seq<Doc>, limit: nat, chunks: seq<Doc>)
    requires limit >= 1 && |docs| <= limit && FreshFor(docs, chunks)
    ensures RemoveAll(WriteAll(docs, limit, chunks), IdsOf(chunks)) == docs
       <==> docs == [] || |docs| + |chunks| <= limit
  {
    RollbackKeepsTheRecentEnd(docs, limit, chunks);
  }
}
