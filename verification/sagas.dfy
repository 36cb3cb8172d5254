/**
 The request handlers (app/main.py, lines 94-129 and 173-308) with the services
 they drive: IngestionService.ingest (contexts/ingestion/services.py),
 RetrievalService.ask_with_outcome (contexts/ai/services.py) and
 RiskScoringService.score (contexts/payments/services.py).

 `published` and `audited` are the events and records of all requests so far;
 what one request adds to them is a run of its steps in SagaScripts.
 */
module Sagas {
  import opened Collections
  import opened MemoryStore
  import opened Effects
  import opened SagaScripts

  /** Performing `b` after `a` is performing `a + b`, on top of what was there. */
  lemma Chained(a: seq<Effect>, b: seq<Effect>, faults: Faults, n: nat, published: seq<Event>, audited: seq<Record>)
    ensures var ra, r := Perform(a, faults, n), Perform(a + b, faults, n);
      var rb := Perform(b, faults, ra.publishes);
      if ra.raised then r == ra
      else
        && r.raised == rb.raised && r.publishes == rb.publishes
        && published + r.published == published + ra.published + rb.published
        && audited + r.audited == audited + ra.audited + rb.audited
  {
    PerformConcat(a, b, faults, n);
    var ra := Perform(a, faults, n);
    var rb := Perform(b, faults, ra.publishes);
    Associative(published, ra.published, rb.published);
    Associative(audited, ra.audited, rb.audited);
  }

  function TextsOf(ds: seq<Doc>): (r: seq<string>)
    ensures |r| == |ds| && forall i :: 0 <= i < |ds| ==> r[i] == ds[i].text
  {
    seq(|ds|, i requires 0 <= i < |ds| => ds[i].text)
  }

  lemma ZipBack(ds: seq<Doc>)
    ensures Zip(IdsOf(ds), TextsOf(ds)) == ds
  {}

  /** The run of a payment is what comes before its conclusion, and then that. */
  lemma Concluded(faults: Faults, id: nat, s: Score, published: seq<Event>, audited: seq<Record>)
    requires BeforeConclusion(faults, id, s).published != []
    ensures var first, r := BeforeConclusion(faults, id, s), PaymentRun(faults, id, s);
      var last := Perform(ConclusionEffects(PaymentOutcome(faults, id, s)), faults, first.publishes);
      && r.raised == last.raised
      && published + r.published == published + first.published + last.published
      && audited + r.audited == audited + first.audited + last.audited
  {
    var first := BeforeConclusion(faults, id, s);
    var last := Perform(ConclusionEffects(PaymentOutcome(faults, id, s)), faults, first.publishes);
    Associative(published, first.published, last.published);
    Associative(audited, first.audited, last.audited);
  }

  /** A failed score stops at its compensation if that raises. */
  lemma StoppedEarly(id: nat, s: Score, faults: Faults, n: nat)
    requires s.failureReason != "" && Perform(Announcing([] + [PaymentCompensated(id)]), faults, n).raised
    ensures Perform(Announcing(ScoreEvents(id, s)), faults, n)
         == Perform(Announcing([] + [PaymentCompensated(id)]), faults, n)
  {
    var scored := PaymentScored(id, s.decision, s.risk, s.failureReason);
    AnnouncingNext([PaymentCompensated(id)], scored);
    assert [] + [PaymentCompensated(id)] == [PaymentCompensated(id)];
    PerformConcat(Announcing([PaymentCompensated(id)]), [Announce(scored)], faults, n);
  }

  class Service {
    const store: RetrievalStore
    var published: seq<Event>
    var audited: seq<Record>
    var publishes: nat  // publications attempted by the current request

    constructor (store: RetrievalStore)
      ensures this.store == store && published == [] && audited == [] && publishes == 0
    {
      this.store := store;
      published, audited, publishes := [], [], 0;
    }

    /** These steps were performed on top of `p` and `a`, from publication `n` on. */
    ghost predicate Did(fx: seq<Effect>, raised: bool, n: nat, p: seq<Event>, a: seq<Record>, faults: Faults)
      reads this
    {
      var r := Perform(fx, faults, n);
      published == p + r.published && audited == a + r.audited && publishes == r.publishes && raised == r.raised
    }

    method PublishEvent(e: Event, faults: Faults) returns (raised: bool)
      modifies this`published, this`publishes
      ensures raised == faults(Publish(old(publishes), e)) && publishes == old(publishes) + 1
      ensures published == if raised then old(published) else old(published) + [e]
      ensures Did([Announce(e)], raised, old(publishes), old(published), audited, faults)
    {
      raised := faults(Publish(publishes, e));
      PerformOne(Announce(e), faults, publishes);
      publishes := publishes + 1;
      if !raised { published := published + [e]; }
    }

    /** `record_transition`: a failing audit write is only logged. */
    method RecordTransition(from: Phase, to: Phase, place: nat, faults: Faults) returns (raised: bool)
      modifies this`published, this`publishes, this`audited
      ensures raised == faults(Publish(old(publishes), Transition(from, to)))
      ensures Did(Moving(Transition(from, to), place), raised, old(publishes), old(published), old(audited), faults)
    {
      ghost var e := Transition(from, to);
      Chained([Audit(AsRecord(e), TransitionAudit(place))], [Announce(e)], faults, publishes, published, audited);
      PerformOne(Audit(AsRecord(e), TransitionAudit(place)), faults, publishes);
      if !faults(TransitionAudit(place)) { audited := audited + [TransitionRecord(from, to)]; }
      raised := PublishEvent(Transition(from, to), faults);
    }

    method RecordCompensation(boundary: string, reason: string, place: nat, faults: Faults)
      modifies this`audited
      ensures audited == old(audited) + Kept(CompensationRecord(boundary, reason), CompensationAudit(place), faults)
      ensures Did([Audit(CompensationRecord(boundary, reason), CompensationAudit(place))], false,
                  publishes, published, old(audited), faults)
    {
      PerformOne(Audit(CompensationRecord(boundary, reason), CompensationAudit(place)), faults, publishes);
      if !faults(CompensationAudit(place)) { audited := audited + [CompensationRecord(boundary, reason)]; }
    }

    method Start()
      modifies this`publishes
      ensures publishes == 0
    {
      publishes := 0;
    }

    /** COMPENSATED, the compensation record, and the compensating event. */
    method Compensate(boundary: string, reason: string, notice: Event, t: nat, c: nat, faults: Faults)
      returns (raised: bool)
      modifies this`published, this`publishes, this`audited
      ensures Did(Compensating(boundary, reason, notice, t, c), raised,
                  old(publishes), old(published), old(audited), faults)
    {
      ghost var moving := Moving(End(false), t);
      ghost var note := [Audit(CompensationRecord(boundary, reason), CompensationAudit(c))];
      Chained(moving, note, faults, publishes, published, audited);
      Chained(moving + note, [Announce(notice)], faults, publishes, published, audited);
      raised := RecordTransition(Processing, Compensated, t, faults);
      if raised { return; }
      RecordCompensation(boundary, reason, c, faults);
      raised := PublishEvent(notice, faults);
    }

    /** The audit write succeeded: the terminal transition and its announcement. */
    method Complete(completed: bool, kind: string, faults: Faults) returns (raised: bool)
      requires !faults(RequestAudit)
      modifies this`published, this`publishes, this`audited
      ensures Did(Completing(completed, kind), raised, old(publishes), old(published), old(audited), faults)
    {
      ghost var note, moving := [Audit(RequestRecord(kind), RequestAudit)], Moving(End(completed), 1);
      Chained(note, moving, faults, publishes, published, audited);
      Chained(note + moving, [Announce(RecordLogged(kind))], faults, publishes, published, audited);
      PerformOne(note[0], faults, publishes);
      audited := audited + [RequestRecord(kind)];
      raised := RecordTransition(Processing, if completed then Completed else Compensated, 1, faults);
      if raised { return; }
      raised := PublishEvent(RecordLogged(kind), faults);
    }

    // ---------- ingestion ----------

    predicate InMemory() { !store.vectorEnabled && !store.searchEnabled }

    /** `store.add` in memory mode. */
    method AddChunks(chunks: seq<Doc>)
      requires store.Valid()
      modifies store`documents
      ensures store.Valid()
      ensures InMemory() ==> store.documents == WriteAll(old(store.documents), store.limit, chunks)
    {
      store.Remember(IdsOf(chunks), TextsOf(chunks));
      ZipBack(chunks);
    }

    /** The audit write failed: roll back, then compensate. */
    method AuditFailure(chunks: seq<Doc>, faults: Faults) returns (raised: bool)
      requires store.Valid()
      modifies this`published, this`publishes, this`audited, store`documents
      ensures store.Valid()
      ensures store.documents ==
              if faults(StoreRemove) then old(store.documents) else RemoveAll(old(store.documents), IdsOf(chunks))
      ensures Did(EndingEffects(AuditFailed, faults), raised, old(publishes), old(published), old(audited), faults)
    {
      var notice := IngestionCompensated("AUDIT_WRITE_FAILED");
      Chained(RollbackNote(faults), Compensating("audit_sink", "AUDIT_WRITE_FAILED", notice, 1, 1),
              faults, publishes, published, audited);
      if faults(StoreRemove) {
        RecordCompensation("retrieval_store", "ROLLBACK_FAILED", 0, faults);
      } else {
        store.Remove(IdsOf(chunks));
      }
      raised := Compensate("audit_sink", "AUDIT_WRITE_FAILED", notice, 1, 1, faults);
    }

    /** From `store.add` to the end of the `try` block. */
    method StoreAndAudit(chunks: seq<Doc>, faults: Faults) returns (answer: Option<int>)
      requires store.Valid() && !faults(Splitting)
      modifies this`published, this`publishes, this`audited, store`documents
      ensures store.Valid()
      ensures InMemory() ==>
        var o := IngestionOutcome(faults);
        store.documents == DocumentsAfter(o, faults(StoreRemove), old(store.documents), store.limit, chunks)
      ensures Did(EndingEffects(IngestionOutcome(faults), faults), answer.None?,
                  old(publishes), old(published), old(audited), faults)
      ensures answer.Some? ==> answer.value == IngestionStatus(IngestionOutcome(faults))
    {
      var raised, status;
      if faults(StoreAdd) {
        var notice := IngestionCompensated("STORE_ADD_FAILED");
        raised := Compensate("retrieval_store", "STORE_ADD_FAILED", notice, 1, 1, faults);
        status := 502;
      } else {
        AddChunks(chunks);
        if faults(RequestAudit) {
          raised := AuditFailure(chunks, faults);
          status := 503;
        } else {
          raised := Complete(true, "ingest", faults);
          status := 200;
        }
      }
      answer := if raised then None else Some(status);
    }

    /** The `try` block of `ingest`; `None` is a plain exception. */
    method IngestBody(chunks: seq<Doc>, faults: Faults) returns (answer: Option<int>)
      requires store.Valid()
      modifies this`published, this`publishes, this`audited, store`documents
      ensures store.Valid()
      ensures Did(TryEffects(faults, |chunks|), answer.None? && !faults(Splitting),
                  old(publishes), old(published), old(audited), faults)
      ensures faults(Splitting) ==> answer.None?
      ensures answer.Some? ==> answer.value == IngestionStatus(IngestionOutcome(faults))
      ensures InMemory() ==>
        store.documents ==
          (if !faults(Splitting) && faults(Publish(old(publishes), Telemetry(|chunks|))) then old(store.documents)
           else DocumentsAfter(IngestionOutcome(faults), faults(StoreRemove), old(store.documents), store.limit,
                               chunks))
    {
      if faults(Splitting) { return None; }
      Chained([Announce(Telemetry(|chunks|))], EndingEffects(IngestionOutcome(faults), faults),
              faults, publishes, published, audited);
      var raised := PublishEvent(Telemetry(|chunks|), faults);
      if raised { return None; }
      answer := StoreAndAudit(chunks, faults);
    }

    /** `POST /ingest-sample` */
    method Ingest(chunks: seq<Doc>, faults: Faults) returns (answer: Answer)
      requires store.Valid()
      modifies this`published, this`publishes, this`audited, store`documents
      ensures store.Valid()
      ensures var r := IngestionRun(faults, |chunks|);
        && published == old(published) + r.published
        && audited == old(audited) + r.audited
      ensures answer == IngestionAnswer(faults, |chunks|)
      ensures InMemory() ==>
        store.documents ==
          (if StopsBeforeTheStore(faults, |chunks|) then old(store.documents)
           else DocumentsAfter(IngestionOutcome(faults), faults(StoreRemove), old(store.documents), store.limit,
                               chunks))
    {
      ghost var p, a := published, audited;
      ghost var r := BeforeHandler(faults, |chunks|);
      StartOf(TryEffects(faults, |chunks|), faults);
      Start();
      Chained(StartEffects(), TryEffects(faults, |chunks|), faults, 0, published, audited);
      var raised := RecordTransition(Initialized, Processing, 0, faults);
      if raised { return Escaped; }
      var body := IngestBody(chunks, faults);
      assert published == p + r.published && audited == a + r.audited && publishes == r.publishes;
      if body.Some? { return Http(body.value); }
      ghost var h := Perform(HandlerEffects(), faults, publishes);
      Associative(p, r.published, h.published);
      Associative(a, r.audited, h.audited);
      var notice := IngestionCompensated("UNHANDLED_FAILURE");
      raised := Compensate("ingestion", "UNHANDLED_FAILURE", notice, 2, 2, faults);
      answer := if raised then Escaped else Http(500);
    }

    // ---------- questions ----------

    /** One more publication after those of `done`. */
    method PublishNext(ghost done: seq<Event>, e: Event, ghost n: nat, ghost p: seq<Event>, faults: Faults)
      returns (raised: bool)
      requires Did(Announcing(done), false, n, p, audited, faults)
      modifies this`published, this`publishes
      ensures Did(Announcing(done + [e]), raised, n, p, audited, faults)
    {
      AnnouncingNext(done, e);
      Chained(Announcing(done), [Announce(e)], faults, n, p, audited);
      raised := PublishEvent(e, faults);
    }

    /** The loop over the two boundaries at the end of `ask_with_outcome`. */
    method PublishCompensations(id: nat, retrievalError: bool, inferenceError: bool, faults: Faults)
      returns (compensations: seq<Event>, raised: bool)
      requires !(retrievalError && inferenceError)
      modifies this`published, this`publishes
      ensures var failed := if retrievalError then Some("retrieval_store")
                            else if inferenceError then Some("llm_inference") else None;
        && Did(Announcing(AskCompensations(id, failed)), raised, old(publishes), old(published), audited, faults)
        && (!raised ==> compensations == AskCompensations(id, failed))
    {
      compensations, raised := [], false;
      var pairs := [("retrieval_store", retrievalError), ("llm_inference", inferenceError)];
      ghost var failed := if retrievalError then Some("retrieval_store")
                          else if inferenceError then Some("llm_inference") else None;
      var i := 0;
      while i < |pairs|
        invariant i <= |pairs|
        invariant Did(Announcing(compensations), false, old(publishes), old(published), audited, faults)
        invariant compensations == AskCompensations(id,
          if retrievalError && i >= 1 then Some("retrieval_store")
          else if inferenceError && i >= 2 then Some("llm_inference") else None)
      {
        if pairs[i].1 {
          var compensation := TransactionCompensated(Some(id), FAIL_SAFE, pairs[i].0);
          raised := PublishNext(compensations, compensation, old(publishes), old(published), faults);
          compensations := compensations + [compensation];
          if raised {
            assert compensations == AskCompensations(id, failed);
            return;
          }
        }
        i := i + 1;
      }
    }

    /** RetrievalService.ask_with_outcome */
    method AskWithOutcome(id: nat, retrieval: Option<seq<string>>, llm: bool, inference: Option<string>, faults: Faults)
      returns (output: Output, retrieved: seq<string>, compensations: seq<Event>, raised: bool)
      modifies this`published, this`publishes
      ensures Did(ServiceEffects(id, FailedBoundary(retrieval, llm, inference)), raised,
                  old(publishes), old(published), audited, faults)
      ensures !raised ==>
        && compensations == AskCompensations(id, FailedBoundary(retrieval, llm, inference))
        && output == AskOutput(retrieval, llm, inference)
        && retrieved == if retrieval.Some? then retrieval.value else []
    {
      compensations := [];
      var retrievalError, inferenceError := false, false;
      if retrieval.None? {
        retrievalError, retrieved := true, [];
      } else {
        retrieved := retrieval.value;
      }
      output := NoEvidence;
      if retrieved != [] && llm {
        if inference.None? {
          inferenceError, output := true, InferenceUnavailable;
        } else {
          output := Generated(inference.value);
        }
      } else if retrieved != [] {
        output := InferenceDisabled;
      }
      ghost var failed := FailedBoundary(retrieval, llm, inference);
      Chained([Announce(Processed(id, failed.Some?))], Announcing(AskCompensations(id, failed)),
              faults, publishes, published, audited);
      raised := PublishEvent(Processed(id, retrievalError || inferenceError), faults);
      if raised { return; }
      compensations, raised := PublishCompensations(id, retrievalError, inferenceError, faults);
    }

    /** `for event in compensations: record_compensation(...)` */
    method RecordCompensations(comps: seq<Event>, faults: Faults)
      requires forall i :: 0 <= i < |comps| ==> comps[i].TransactionCompensated?
      modifies this`audited
      ensures Did(NotesOf(comps), false, publishes, published, old(audited), faults)
    {
      var i := 0;
      while i < |comps|
        invariant i <= |comps|
        invariant Did(NotesOf(comps[..i]), false, publishes, published, old(audited), faults)
      {
        NotesNext(comps, i);
        Chained(NotesOf(comps[..i]), [NoteOf(comps[i], i)], faults, publishes, published, old(audited));
        RecordCompensation(comps[i].boundary, comps[i].reason, i, faults);
        i := i + 1;
      }
      assert comps[..i] == comps;
    }

    /** The end of `ask`: audit the request, then the terminal transition. */
    method AnswerQuestion(compensated: bool, ghost failed: Option<string>, faults: Faults) returns (raised: bool)
      requires compensated == failed.Some?
      modifies this`published, this`publishes, this`audited
      ensures Did(AnswerEffects(failed, faults), raised, old(publishes), old(published), old(audited), faults)
    {
      if faults(RequestAudit) {
        var notice := TransactionCompensated(None, "AUDIT_WRITE_FAILED", "");
        raised := Compensate("audit_sink", "AUDIT_WRITE_FAILED", notice, 1, 2, faults);
      } else {
        raised := Complete(!compensated, "ask", faults);
      }
    }

    /** `ask` once its model client is set up. */
    method AskBody(id: nat, retrieval: Option<seq<string>>, modelWanted: bool, inference: Option<string>,
                   faults: Faults)
      returns (output: Output, raised: bool)
      modifies this`published, this`publishes, this`audited
      ensures Did(AskEffects(id, FailedBoundary(retrieval, modelWanted, inference), faults), raised,
                  old(publishes), old(published), old(audited), faults)
      ensures !raised ==> output == AskOutput(retrieval, modelWanted, inference)
    {
      ghost var failed := FailedBoundary(retrieval, modelWanted, inference);
      ghost var service, notes := ServiceEffects(id, failed), NotesOf(AskCompensations(id, failed));
      Chained(service, notes, faults, publishes, published, audited);
      Chained(service + notes, AnswerEffects(failed, faults), faults, publishes, published, audited);
      var retrieved, comps;
      output, retrieved, comps, raised := AskWithOutcome(id, retrieval, modelWanted, inference, faults);
      if raised { return; }
      RecordCompensations(comps, faults);
      raised := AnswerQuestion(comps != [], failed, faults);
    }

    /** `POST /ask`; `modelWanted` is ENABLE_OLLAMA_INFERENCE. */
    method Ask(id: nat, retrieval: Option<seq<string>>, modelWanted: bool, inference: Option<string>, faults: Faults)
      returns (answer: Answer, output: Output)
      modifies this`published, this`publishes, this`audited
      ensures var failed := FailedBoundary(retrieval, modelWanted, inference);
        var r := AskRun(id, failed, modelWanted, faults);
        && published == old(published) + r.published
        && audited == old(audited) + r.audited
        && answer == AskAnswer(id, failed, modelWanted, faults)
      ensures answer.Http? ==> output == AskOutput(retrieval, modelWanted, inference)
    {
      ghost var failed := FailedBoundary(retrieval, modelWanted, inference);
      output := NoEvidence;
      Start();
      Chained(StartEffects(), AskEffects(id, failed, faults), faults, 0, published, audited);
      var raised := RecordTransition(Initialized, Processing, 0, faults);
      if raised { return Escaped, output; }
      if modelWanted && faults(ModelSetup) { return Escaped, output; }
      output, raised := AskBody(id, retrieval, modelWanted, inference, faults);
      answer := if raised then Escaped else if faults(RequestAudit) then Http(503) else Http(200);
    }

    // ---------- payments ----------

    /** The `try` statement of `score`: the score, or the one that fails closed. */
    method AssessRisk(amountMinor: nat, currency: string, round: real -> real, detector: Detector, faults: Faults)
      returns (s: Score)
      ensures s == RiskOf(amountMinor, currency, round, detector, faults)
    {
      if faults(ScoringPolicy) || detector.Raises? {
        return Score(0.0, "review", "DOWNSTREAM_TIMEOUT_FAIL_CLOSED");
      }
      var score := BaselineScore(amountMinor, currency, round);
      if detector == Answers(true) && score < 0.7 { score := 0.7; }
      s := Score(score, if score >= 0.7 then "review" else "allow", "");
    }

    /** The compensation of a failed score, and the score. */
    method AnnounceScore(id: nat, s: Score, faults: Faults) returns (raised: bool)
      modifies this`published, this`publishes
      ensures Did(Announcing(ScoreEvents(id, s)), raised, old(publishes), old(published), audited, faults)
    {
      ghost var n, p := publishes, published;
      ghost var done := [];
      if s.failureReason != "" {
        raised := PublishNext(done, PaymentCompensated(id), n, p, faults);
        if raised {
          StoppedEarly(id, s, faults, n);
          return;
        }
        done := [PaymentCompensated(id)];
      }
      raised := PublishNext(done, PaymentScored(id, s.decision, s.risk, s.failureReason), n, p, faults);
    }

    /** RiskScoringService.score */
    method ScorePayment(id: nat, amountMinor: nat, currency: string, round: real -> real, detector: Detector,
                        faults: Faults)
      returns (s: Score, raised: bool)
      modifies this`published, this`publishes
      ensures s == RiskOf(amountMinor, currency, round, detector, faults)
      ensures Did(Announcing(ScoreEvents(id, s)), raised, old(publishes), old(published), audited, faults)
    {
      s := AssessRisk(amountMinor, currency, round, detector, faults);
      raised := AnnounceScore(id, s, faults);
    }

    /** The `try` block of `ingest_payment`; `None` is a plain exception. */
    method TryPayment(id: nat, amountMinor: nat, currency: string, round: real -> real, detector: Detector,
                      faults: Faults)
      returns (score: Option<Score>)
      modifies this`published, this`publishes
      ensures var s := RiskOf(amountMinor, currency, round, detector, faults);
        && (faults(PaymentIntake) ==> score.None?)
        && (score.Some? ==> score.value == s)
        && Did(PaymentTry(faults, id, s), score.None? && !faults(PaymentIntake),
               old(publishes), old(published), audited, faults)
    {
      if faults(PaymentIntake) { return None; }
      ghost var s0 := RiskOf(amountMinor, currency, round, detector, faults);
      Chained([Announce(PaymentIngested(id))], Announcing(ScoreEvents(id, s0)), faults, publishes, published, audited);
      var raised := PublishEvent(PaymentIngested(id), faults);
      if raised { return None; }
      var s;
      s, raised := ScorePayment(id, amountMinor, currency, round, detector, faults);
      score := if raised then None else Some(s);
    }

    /** The transition to COMPENSATED and its record, without a further event. */
    method CompensatePayment(boundary: string, reason: string, faults: Faults) returns (raised: bool)
      modifies this`published, this`publishes, this`audited
      ensures Did(Moving(End(false), 1) + [Audit(CompensationRecord(boundary, reason), CompensationAudit(0))], raised,
                  old(publishes), old(published), old(audited), faults)
    {
      Chained(Moving(End(false), 1), [Audit(CompensationRecord(boundary, reason), CompensationAudit(0))],
              faults, publishes, published, audited);
      raised := RecordTransition(Processing, Compensated, 1, faults);
      if !raised { RecordCompensation(boundary, reason, 0, faults); }
    }

    /** What follows the `try` block of `ingest_payment`. */
    method ConcludePayment(score: Option<Score>, faults: Faults) returns (raised: bool)
      requires score.Some? && score.value.failureReason != "" ==> score.value == FailedClosed()
      modifies this`published, this`publishes, this`audited
      ensures var o := if score.None? then Unavailable
                       else if score.value.failureReason != "" then ScoringFailed else Decided;
        Did(ConclusionEffects(o), raised, old(publishes), old(published), old(audited), faults)
    {
      if score.None? {
        raised := CompensatePayment("payment_ingestion", "UNHANDLED_FAILURE", faults);
      } else if score.value.failureReason != "" {
        raised := CompensatePayment("payment_risk_scoring", score.value.failureReason, faults);
      } else {
        raised := RecordTransition(Processing, Completed, 1, faults);
      }
    }

    /** `POST /payments/transactions` */
    method IngestPayment(id: nat, amountMinor: nat, currency: string, round: real -> real, detector: Detector,
                         faults: Faults)
      returns (answer: Answer, score: Option<Score>)
      modifies this`published, this`publishes, this`audited
      ensures var s := RiskOf(amountMinor, currency, round, detector, faults);
        var r := PaymentRun(faults, id, s);
        && published == old(published) + r.published
        && audited == old(audited) + r.audited
        && answer == PaymentAnswer(faults, id, s)
        && (answer == Http(200) ==> score == Some(s))
    {
      ghost var s := RiskOf(amountMinor, currency, round, detector, faults);
      ghost var p, a, r := published, audited, BeforeConclusion(faults, id, s);
      score := None;
      Start();
      StartOf(PaymentTry(faults, id, s), faults);
      Chained(StartEffects(), PaymentTry(faults, id, s), faults, 0, published, audited);
      var raised := RecordTransition(Initialized, Processing, 0, faults);
      if raised { return Escaped, score; }
      score := TryPayment(id, amountMinor, currency, round, detector, faults);
      assert published == p + r.published && audited == a + r.audited && publishes == r.publishes;
      Concluded(faults, id, s, p, a);
      raised := ConcludePayment(score, faults);
      answer := if raised then Escaped else if score.None? then Http(502) else Http(200);
    }
  }
}
