/**
 What each failure leaves behind: the events, the audit records and the answer of a
 request, told from the failing calls alone (app/main.py, lines 173-308), and when a
 request has its own record in the audit log.
 */
module SagaRecords {
  import opened Collections
  import opened MemoryStore
  import opened Effects
  import opened SagaScripts

  // ---------- records of the common steps ----------

  const BEGUN := Transition(Initialized, Processing)
  const FAILED := Transition(Processing, Compensated)
  const DONE := Transition(Processing, Completed)

  function Finish(completed: bool): (e: Event)
    ensures e.Transition?
  {
    if completed then DONE else FAILED
  }

  /** The record of a transition, unless its audit write fails. */
  function Moved(e: Event, n: nat, faults: Faults): seq<Record>
    requires e.Transition?
  {
    if faults(TransitionAudit(n)) then [] else [TransitionRecord(e.from, e.to)]
  }

  /** The record of a compensation, unless its audit write fails. */
  function Noted(boundary: string, reason: string, n: nat, faults: Faults): seq<Record> {
    if faults(CompensationAudit(n)) then [] else [CompensationRecord(boundary, reason)]
  }

  lemma MovingRecords(e: Event, n: nat, faults: Faults)
    requires e.Transition?
    ensures Records(Moving(e, n), faults) == Moved(e, n, faults)
  {
    var record, told := Audit(AsRecord(e), TransitionAudit(n)), Announce(e);
    RecordsOfConcat([record], [told], faults);
    RecordsOfOne(record, faults);
    RecordsOfOne(told, faults);
  }

  lemma CompensatingRecords(boundary: string, reason: string, notice: Event, t: nat, c: nat, faults: Faults)
    ensures Records(Compensating(boundary, reason, notice, t, c), faults)
         == Moved(End(false), t, faults) + Noted(boundary, reason, c, faults)
  {
    var note := Audit(CompensationRecord(boundary, reason), CompensationAudit(c));
    MovingRecords(End(false), t, faults);
    RecordsOfOne(note, faults);
    RecordsOfOne(Announce(notice), faults);
    RecordsOfConcat(Moving(End(false), t), [note], faults);
    RecordsOfConcat(Moving(End(false), t) + [note], [Announce(notice)], faults);
  }

  lemma CompletingRecords(completed: bool, kind: string, faults: Faults)
    ensures Records(Completing(completed, kind), faults)
         == Kept(RequestRecord(kind), RequestAudit, faults) + Moved(Finish(completed), 1, faults)
  {
    var note := Audit(RequestRecord(kind), RequestAudit);
    MovingRecords(End(completed), 1, faults);
    RecordsOfOne(note, faults);
    RecordsOfOne(Announce(RecordLogged(kind)), faults);
    RecordsOfConcat([note], Moving(End(completed), 1), faults);
    RecordsOfConcat([note] + Moving(End(completed), 1), [Announce(RecordLogged(kind))], faults);
  }

  // ---------- ingestion ----------

  /** The events of an ingestion, if no publication raises. */
  function IngestionTold(faults: Faults, chunks: nat): seq<Event> {
    if faults(Splitting) then [BEGUN, FAILED, IngestionCompensated("UNHANDLED_FAILURE")]
    else if faults(StoreAdd) then
      [BEGUN, Telemetry(chunks), FAILED, IngestionCompensated("STORE_ADD_FAILED")]
    else if faults(RequestAudit) then
      [BEGUN, Telemetry(chunks), FAILED, IngestionCompensated("AUDIT_WRITE_FAILED")]
    else [BEGUN, Telemetry(chunks), DONE, RecordLogged("ingest")]
  }

  /** The records from `store.add` to the end of the `try` block. */
  function EndingKept(faults: Faults): seq<Record> {
    if faults(StoreAdd) then
      Moved(FAILED, 1, faults) + Noted("retrieval_store", "STORE_ADD_FAILED", 1, faults)
    else if faults(RequestAudit) then
      (if faults(StoreRemove) then Noted("retrieval_store", "ROLLBACK_FAILED", 0, faults) else [])
      + (Moved(FAILED, 1, faults) + Noted("audit_sink", "AUDIT_WRITE_FAILED", 1, faults))
    else [RequestRecord("ingest")] + Moved(DONE, 1, faults)
  }

  /** Its records. */
  function IngestionKept(faults: Faults): seq<Record> {
    Moved(BEGUN, 0, faults) +
    if faults(Splitting) then Moved(FAILED, 2, faults) + Noted("ingestion", "UNHANDLED_FAILURE", 2, faults)
    else EndingKept(faults)
  }

  lemma IngestionScriptIs(faults: Faults, chunks: nat)
    ensures IngestionEvents(IngestionOutcome(faults), chunks) == IngestionTold(faults, chunks)
  {}

  lemma RollbackRecords(faults: Faults)
    ensures Records(RollbackNote(faults), faults)
         == if faults(StoreRemove) then Noted("retrieval_store", "ROLLBACK_FAILED", 0, faults) else []
  {
    if faults(StoreRemove) { RecordsOfOne(RollbackNote(faults)[0], faults); }
  }

  lemma AuditFailedRecords(faults: Faults)
    ensures Records(EndingEffects(AuditFailed, faults), faults)
         == (if faults(StoreRemove) then Noted("retrieval_store", "ROLLBACK_FAILED", 0, faults) else [])
            + (Moved(FAILED, 1, faults) + Noted("audit_sink", "AUDIT_WRITE_FAILED", 1, faults))
  {
    var notice := IngestionCompensated("AUDIT_WRITE_FAILED");
    CompensatingRecords("audit_sink", "AUDIT_WRITE_FAILED", notice, 1, 1, faults);
    RollbackRecords(faults);
    RecordsOfConcat(RollbackNote(faults), Compensating("audit_sink", "AUDIT_WRITE_FAILED", notice, 1, 1), faults);
  }

  lemma EndingRecords(faults: Faults)
    requires !faults(Splitting)
    ensures Records(EndingEffects(IngestionOutcome(faults), faults), faults) == EndingKept(faults)
  {
    if faults(StoreAdd) {
      CompensatingRecords("retrieval_store", "STORE_ADD_FAILED", IngestionCompensated("STORE_ADD_FAILED"), 1, 1,
                          faults);
    } else if faults(RequestAudit) {
      AuditFailedRecords(faults);
    } else {
      CompletingRecords(true, "ingest", faults);
    }
  }

  /** The records of the `try` block. */
  lemma TryRecords(faults: Faults, chunks: nat)
    requires !faults(Splitting)
    ensures Records(StartEffects() + TryEffects(faults, chunks), faults) == Moved(BEGUN, 0, faults) + EndingKept(faults)
  {
    var ending := EndingEffects(IngestionOutcome(faults), faults);
    MovingRecords(START, 0, faults);
    FirstStep(Announce(Telemetry(chunks)), ending, faults);
    RecordsOfConcat(StartEffects(), [Announce(Telemetry(chunks))] + ending, faults);
    EndingRecords(faults);
  }

  lemma HandlerRecords(faults: Faults)
    ensures Records(HandlerEffects(), faults)
         == Moved(FAILED, 2, faults) + Noted("ingestion", "UNHANDLED_FAILURE", 2, faults)
  {
    CompensatingRecords("ingestion", "UNHANDLED_FAILURE", IngestionCompensated("UNHANDLED_FAILURE"), 2, 2, faults);
  }

  lemma QuietTryEvents(faults: Faults, chunks: nat)
    requires Quiet(IngestionEvents(IngestionOutcome(faults), chunks), faults, 0)
    ensures Quiet(TryEvents(IngestionOutcome(faults), chunks), faults, 0)
  {
    var o := IngestionOutcome(faults);
    ScriptParts(o, chunks);
    QuietParts(TryEvents(o, chunks), if o.Unhandled? then EndingEvents(o) else [], faults, 0);
  }

  /**
   An ingestion none of whose publications raises: its events, records and answer, told
   from the calls that fail.
   */
  lemma QuietIngestion(faults: Faults, chunks: nat)
    requires Quiet(IngestionTold(faults, chunks), faults, 0)
    ensures var r := IngestionRun(faults, chunks);
      && r.published == IngestionTold(faults, chunks) && r.audited == IngestionKept(faults)
    ensures IngestionAnswer(faults, chunks) == Http(
      if faults(Splitting) then 500 else if faults(StoreAdd) then 502 else if faults(RequestAudit) then 503 else 200)
  {
    IngestionScriptIs(faults, chunks);
    IngestionFollowsItsScript(faults, chunks);
    QuietTryEvents(faults, chunks);
    QuietTry(faults, chunks);
    var fx := StartEffects() + TryEffects(faults, chunks);
    AllRecords(fx, faults, 0);
    if faults(Splitting) {
      assert fx == StartEffects();
      MovingRecords(START, 0, faults);
      HandlerRecords(faults);
      AllRecords(HandlerEffects(), faults, BeforeHandler(faults, chunks).publishes);
    } else {
      TryRecords(faults, chunks);
    }
  }

  lemma FailedTryHasNoRecord(faults: Faults, chunks: nat)
    requires faults(Splitting) || faults(StoreAdd) || faults(RequestAudit)
    ensures RequestRecords(BeforeHandler(faults, chunks)) == []
  {
    NoRequestRecords(StartEffects() + TryEffects(faults, chunks), faults, 0);
  }

  lemma StartThenTelemetry(faults: Faults, chunks: nat)
    ensures Perform(StartEffects() + [Announce(Telemetry(chunks))], faults, 0).raised
       <==> faults(Publish(0, START)) || faults(Publish(1, Telemetry(chunks)))
  {
    var told := [Announce(Telemetry(chunks))];
    PairPerformed(StartEffects() + told, faults, 0);
    PerformOne(told[0], faults, 1);
    assert (StartEffects() + told)[2..] == told;
  }

  lemma PassedTryHasRecord(faults: Faults, chunks: nat)
    requires !faults(Splitting) && !faults(StoreAdd) && !faults(RequestAudit)
    ensures RequestRecords(BeforeHandler(faults, chunks)) ==
            if faults(Publish(0, START)) || faults(Publish(1, Telemetry(chunks))) then [] else [RequestRecord("ingest")]
  {
    var before := StartEffects() + [Announce(Telemetry(chunks))];
    var after := Moving(End(true), 1) + [Announce(RecordLogged("ingest"))];
    assert StartEffects() + TryEffects(faults, chunks)
        == before + ([Audit(RequestRecord("ingest"), RequestAudit)] + after);
    OneRequestRecord(before, "ingest", after, faults, 0);
    StartThenTelemetry(faults, chunks);
  }

  lemma HandlerHasNoRecord(faults: Faults, n: nat)
    ensures RequestRecords(Perform(HandlerEffects(), faults, n)) == []
  {
    NoRequestRecords(HandlerEffects(), faults, n);
  }

  /** Whatever raises, an ingestion has its request record exactly if it comes to its
      audit write and the write succeeds. */
  lemma IngestionRecordIff(faults: Faults, chunks: nat)
    ensures RequestRecords(IngestionRun(faults, chunks)) ==
      if faults(Publish(0, START)) || faults(Splitting) || faults(Publish(1, Telemetry(chunks)))
         || faults(StoreAdd) || faults(RequestAudit)
      then [] else [RequestRecord("ingest")]
  {
    var r := BeforeHandler(faults, chunks);
    if faults(Splitting) || faults(StoreAdd) || faults(RequestAudit) {
      FailedTryHasNoRecord(faults, chunks);
    } else {
      PassedTryHasRecord(faults, chunks);
    }
    HandlerHasNoRecord(faults, r.publishes);
    FilterConcat(IsRequestRecord, r.audited, Perform(HandlerEffects(), faults, r.publishes).audited);
  }

  /** A 200 has its request record, between the records of its two transitions. */
  lemma IngestedIsOnRecord(faults: Faults, chunks: nat)
    requires IngestionAnswer(faults, chunks) == Http(200)
    ensures IngestionRun(faults, chunks).audited
         == Moved(BEGUN, 0, faults) + ([RequestRecord("ingest")] + Moved(DONE, 1, faults))
  {
    AllRecords(StartEffects() + TryEffects(faults, chunks), faults, 0);
    StartOf(TryEffects(faults, chunks), faults);
    TryRecords(faults, chunks);
  }

  // ---------- documents ----------

  /** What a request leaves in the store, told from the calls that fail: all of its
      chunks that fit, after the recent end of the earlier documents, only if the audit
      write succeeded or the rollback failed too. */
  lemma DocumentsAreThose(faults: Faults, docs: seq<Doc>, limit: nat, chunks: seq<Doc>)
    requires limit >= 1 && |docs| <= limit && FreshFor(docs, chunks)
    ensures var after := DocumentsAfter(IngestionOutcome(faults), faults(StoreRemove), docs, limit, chunks);
      if faults(Splitting) || faults(StoreAdd) then after == docs
      else if faults(RequestAudit) && !faults(StoreRemove) then
        after == Last(docs, if |chunks| <= limit then limit - |chunks| else 0)
      else after == Last(docs + chunks, limit)
  {
    FreshWrites(docs, limit, chunks);
    if !faults(Splitting) && !faults(StoreAdd) && faults(RequestAudit) {
      AuditFailureKeepsTheRecentEnd(faults, docs, limit, chunks);
    }
  }

  // ---------- questions ----------

  /** The events of a question that finds its model client, if no publication raises. */
  function AskTold(id: nat, failed: Option<string>, faults: Faults): seq<Event> {
    [BEGUN, Processed(id, failed.Some?)]
    + (if failed.Some? then [TransactionCompensated(Some(id), "DOWNSTREAM_FAILURE_FAIL_SAFE", failed.value)] else [])
    + if faults(RequestAudit) then [FAILED, TransactionCompensated(None, "AUDIT_WRITE_FAILED", "")]
      else [Finish(failed.None?), RecordLogged("ask")]
  }

  /** Its records. */
  function AskKept(failed: Option<string>, faults: Faults): seq<Record> {
    Moved(BEGUN, 0, faults)
    + (if failed.Some? then Noted(failed.value, "DOWNSTREAM_FAILURE_FAIL_SAFE", 0, faults) else [])
    + if faults(RequestAudit) then Moved(FAILED, 1, faults) + Noted("audit_sink", "AUDIT_WRITE_FAILED", 2, faults)
      else [RequestRecord("ask")] + Moved(Finish(failed.None?), 1, faults)
  }

  lemma AskScriptIs(id: nat, failed: Option<string>, faults: Faults)
    ensures AskEvents(id, failed, faults(RequestAudit)) == AskTold(id, failed, faults)
  {}

  lemma AnnouncingRecords(events: seq<Event>, faults: Faults)
    ensures Records(Announcing(events), faults) == []
  {
    if events != [] {
      AnnouncingRecords(events[..|events| - 1], faults);
      RecordsOfOne(Announce(events[|events| - 1]), faults);
      RecordsOfConcat(Announcing(events[..|events| - 1]), [Announce(events[|events| - 1])], faults);
    }
  }

  lemma NotesRecords(id: nat, failed: Option<string>, faults: Faults)
    ensures Records(NotesOf(AskCompensations(id, failed)), faults)
         == if failed.Some? then Noted(failed.value, "DOWNSTREAM_FAILURE_FAIL_SAFE", 0, faults) else []
  {
    if failed.Some? {
      var comps := AskCompensations(id, failed);
      assert NotesOf(comps) == NotesOf(comps[..0]) + [NoteOf(comps[0], 0)] && NotesOf(comps[..0]) == [];
      RecordsOfOne(NoteOf(comps[0], 0), faults);
      assert NotesOf(comps) == [NoteOf(comps[0], 0)];
    }
  }

  lemma AnswerRecords(failed: Option<string>, faults: Faults)
    ensures Records(AnswerEffects(failed, faults), faults) ==
      if faults(RequestAudit) then Moved(FAILED, 1, faults) + Noted("audit_sink", "AUDIT_WRITE_FAILED", 2, faults)
      else [RequestRecord("ask")] + Moved(Finish(failed.None?), 1, faults)
  {
    if faults(RequestAudit) {
      CompensatingRecords("audit_sink", "AUDIT_WRITE_FAILED", TransactionCompensated(None, "AUDIT_WRITE_FAILED", ""),
                          1, 2, faults);
    } else {
      CompletingRecords(failed.None?, "ask", faults);
    }
  }

  lemma ServiceRecords(id: nat, failed: Option<string>, faults: Faults)
    ensures Records(ServiceEffects(id, failed), faults) == []
  {
    RecordsOfOne(Announce(Processed(id, failed.Some?)), faults);
    AnnouncingRecords(AskCompensations(id, failed), faults);
    RecordsOfConcat([Announce(Processed(id, failed.Some?))], Announcing(AskCompensations(id, failed)), faults);
  }

  lemma AskRecords(id: nat, failed: Option<string>, faults: Faults)
    ensures Records(StartEffects() + AskEffects(id, failed, faults), faults) == AskKept(failed, faults)
  {
    var service, notes := ServiceEffects(id, failed), NotesOf(AskCompensations(id, failed));
    var kept, kept' := Records(notes, faults), Records(AnswerEffects(failed, faults), faults);
    MovingRecords(START, 0, faults);
    ServiceRecords(id, failed, faults);
    NotesRecords(id, failed, faults);
    AnswerRecords(failed, faults);
    RecordsOfConcat(service, notes, faults);
    RecordsOfConcat(service + notes, AnswerEffects(failed, faults), faults);
    RecordsOfConcat(StartEffects(), AskEffects(id, failed, faults), faults);
    assert [] + kept == kept;
    Associative(Moved(BEGUN, 0, faults), kept, kept');
  }

  /** A question none of whose publications raises and that finds its model client: its
      events, records and answer. */
  lemma QuietAsk(id: nat, failed: Option<string>, modelWanted: bool, faults: Faults)
    requires Quiet(AskTold(id, failed, faults), faults, 0) && !(modelWanted && faults(ModelSetup))
    ensures var r := AskRun(id, failed, modelWanted, faults);
      r.published == AskTold(id, failed, faults) && r.audited == AskKept(failed, faults)
    ensures AskAnswer(id, failed, modelWanted, faults) == Http(if faults(RequestAudit) then 503 else 200)
  {
    AskScriptIs(id, failed, faults);
    AnsweredQuestion(id, failed, modelWanted, faults);
    AllRecords(StartEffects() + AskEffects(id, failed, faults), faults, 0);
    AskRecords(id, failed, faults);
  }

  /** The events of a question before its audit write. */
  function BeforeAskAudit(id: nat, failed: Option<string>): seq<Event> {
    [START, Processed(id, failed.Some?)] + AskCompensations(id, failed)
  }

  /** The steps of a question before its audit write. */
  function BeforeAskEffects(id: nat, failed: Option<string>): seq<Effect> {
    StartEffects() + (ServiceEffects(id, failed) + NotesOf(AskCompensations(id, failed)))
  }


  lemma NotesAreNoRequests(id: nat, failed: Option<string>)
    ensures forall f :: f in NotesOf(AskCompensations(id, failed)) ==> f.Audit? && !IsRequestRecord(f.record)
  {
    if failed.Some? {
      var comps := AskCompensations(id, failed);
      assert NotesOf(comps) == NotesOf(comps[..0]) + [NoteOf(comps[0], 0)] && NotesOf(comps[..0]) == [];
    }
  }

  lemma BeforeAskHasNoRequest(id: nat, failed: Option<string>)
    ensures var fx := BeforeAskEffects(id, failed);
      forall i :: 0 <= i < |fx| && fx[i].Audit? ==> !IsRequestRecord(fx[i].record)
  {
    AnnouncingAnnounces(AskCompensations(id, failed));
    NotesAreNoRequests(id, failed);
  }

  lemma BeforeAskEvents(id: nat, failed: Option<string>)
    ensures Events(BeforeAskEffects(id, failed)) == BeforeAskAudit(id, failed)
  {
    MovingFacts(START, 0);
    ServiceFacts(id, failed);
    EventsOfConcat(ServiceEffects(id, failed), NotesOf(AskCompensations(id, failed)));
    EventsOfConcat(StartEffects(), ServiceEffects(id, failed) + NotesOf(AskCompensations(id, failed)));
  }

  lemma FailedAskHasNoRecord(id: nat, failed: Option<string>, faults: Faults)
    requires faults(RequestAudit)
    ensures RequestRecords(Perform(BeforeAskEffects(id, failed) + AnswerEffects(failed, faults), faults, 0)) == []
  {
    BeforeAskHasNoRequest(id, failed);
    NoRequestRecords(BeforeAskEffects(id, failed) + AnswerEffects(failed, faults), faults, 0);
  }

  lemma PassedAskHasRecord(id: nat, failed: Option<string>, faults: Faults)
    requires !faults(RequestAudit)
    ensures RequestRecords(Perform(BeforeAskEffects(id, failed) + AnswerEffects(failed, faults), faults, 0))
         == if Quiet(BeforeAskAudit(id, failed), faults, 0) then [RequestRecord("ask")] else []
  {
    var before, after := BeforeAskEffects(id, failed), Moving(End(failed.None?), 1) + [Announce(RecordLogged("ask"))];
    BeforeAskHasNoRequest(id, failed);
    BeforeAskEvents(id, failed);
    assert AnswerEffects(failed, faults) == [Audit(RequestRecord("ask"), RequestAudit)] + after;
    OneRequestRecord(before, "ask", after, faults, 0);
    if Quiet(BeforeAskAudit(id, failed), faults, 0) {
      QuietRunsThrough(before, faults, 0);
    } else if !Perform(before, faults, 0).raised {
      RunsThroughOnlyIfQuiet(before, faults, 0);
    }
  }

  /** Whatever raises, a question has its request record exactly if it comes to its audit
      write and the write succeeds. */
  lemma AskRecordIff(id: nat, failed: Option<string>, modelWanted: bool, faults: Faults)
    ensures RequestRecords(AskRun(id, failed, modelWanted, faults)) ==
      if Quiet(BeforeAskAudit(id, failed), faults, 0) && !(modelWanted && faults(ModelSetup)) && !faults(RequestAudit)
      then [RequestRecord("ask")] else []
  {
    if modelWanted && faults(ModelSetup) {
      NoRequestRecords(StartEffects(), faults, 0);
    } else {
      assert StartEffects() + AskEffects(id, failed, faults)
          == BeforeAskEffects(id, failed) + AnswerEffects(failed, faults);
      if faults(RequestAudit) {
        FailedAskHasNoRecord(id, failed, faults);
      } else {
        PassedAskHasRecord(id, failed, faults);
      }
    }
  }

  /** A 200 has its request record, before the record of its terminal transition. */
  lemma AnsweredIsOnRecord(id: nat, failed: Option<string>, modelWanted: bool, faults: Faults)
    requires AskAnswer(id, failed, modelWanted, faults) == Http(200)
    ensures AskRun(id, failed, modelWanted, faults).audited
         == Moved(BEGUN, 0, faults)
            + (if failed.Some? then Noted(failed.value, "DOWNSTREAM_FAILURE_FAIL_SAFE", 0, faults) else [])
            + ([RequestRecord("ask")] + Moved(Finish(failed.None?), 1, faults))
  {
    AllRecords(StartEffects() + AskEffects(id, failed, faults), faults, 0);
    AskRecords(id, failed, faults);
  }

  /** Which output a question gets: one of the model exactly if there was evidence, a
      model was wanted, and its inference succeeded; and then no boundary failed. */
  lemma OutputIs(retrieval: Option<seq<string>>, llm: bool, inference: Option<string>)
    ensures var output := AskOutput(retrieval, llm, inference);
      var evidence := retrieval.Some? && retrieval.value != [];
      && (output == NoEvidence <==> !evidence)
      && (output == InferenceDisabled <==> evidence && !llm)
      && (output == InferenceUnavailable <==> FailedBoundary(retrieval, llm, inference) == Some("llm_inference"))
      && (forall t: string :: output == Generated(t) <==> evidence && llm && inference == Some(t))
      && (FailedBoundary(retrieval, llm, inference) == Some("retrieval_store") <==> retrieval.None?)
  {
    assert |"llm_inference"| != |"retrieval_store"|;
  }

  // ---------- payments ----------

  /** The events of a payment of which only its own announcement can raise. */
  function PaymentTold(id: nat, taken: bool, s: Score): seq<Event> {
    if !taken then [BEGUN, FAILED]
    else if s.failureReason != "" then
      [BEGUN, PaymentIngested(id), PaymentCompensated(id), PaymentScored(id, s.decision, s.risk, s.failureReason),
       FAILED]
    else [BEGUN, PaymentIngested(id), PaymentScored(id, s.decision, s.risk, ""), DONE]
  }

  /** Its records. */
  function PaymentKept(taken: bool, s: Score, faults: Faults): seq<Record> {
    Moved(BEGUN, 0, faults) +
    if !taken then Moved(FAILED, 1, faults) + Noted("payment_ingestion", "UNHANDLED_FAILURE", 0, faults)
    else if s.failureReason != "" then
      Moved(FAILED, 1, faults) + Noted("payment_risk_scoring", "DOWNSTREAM_TIMEOUT_FAIL_CLOSED", 0, faults)
    else Moved(DONE, 1, faults)
  }

  lemma PaymentScriptIs(o: Payment, id: nat, s: Score)
    requires o.Unavailable? || (o.ScoringFailed? <==> s.failureReason != "")
    ensures PaymentEvents(o, id, s) == PaymentTold(id, !o.Unavailable?, s)
  {}

  lemma ConclusionRecords(o: Payment, faults: Faults)
    ensures Records(ConclusionEffects(o), faults) ==
      if o.Decided? then Moved(DONE, 1, faults)
      else if o.Unavailable? then Moved(FAILED, 1, faults) + Noted("payment_ingestion", "UNHANDLED_FAILURE", 0, faults)
      else Moved(FAILED, 1, faults) + Noted("payment_risk_scoring", "DOWNSTREAM_TIMEOUT_FAIL_CLOSED", 0, faults)
  {
    MovingRecords(End(o.Decided?), 1, faults);
    if !o.Decided? {
      var note := ConclusionEffects(o)[2];
      assert ConclusionEffects(o) == Moving(End(false), 1) + [note];
      RecordsOfOne(note, faults);
      RecordsOfConcat(Moving(End(false), 1), [note], faults);
    }
  }

  lemma {:induction false} NothingAudited(fx: seq<Effect>, faults: Faults, n: nat)
    requires forall i :: 0 <= i < |fx| ==> fx[i].Announce?
    ensures Perform(fx, faults, n).audited == []
    decreases |fx|
  {
    if fx != [] { NothingAudited(fx[1..], faults, n + 1); }
  }

  lemma PaymentTryRecords(faults: Faults, id: nat, s: Score)
    requires !faults(Publish(0, START))
    ensures BeforeConclusion(faults, id, s).audited == Moved(BEGUN, 0, faults)
  {
    var fx := PaymentTry(faults, id, s);
    PairPerformed(StartEffects() + fx, faults, 0);
    assert (StartEffects() + fx)[2..] == fx;
    AnnouncingAnnounces(ScoreEvents(id, s));
    NothingAudited(fx, faults, 1);
  }

  /** A payment of which only its own announcement can raise: its events, records and
      answer. */
  lemma QuietPaymentIs(faults: Faults, id: nat, s: Score)
    requires QuietButIntake(faults, id, s)
    ensures var r := PaymentRun(faults, id, s);
      var taken := !faults(PaymentIntake) && !faults(Publish(1, PaymentIngested(id)));
      && r.published == PaymentTold(id, taken, s) && r.audited == PaymentKept(taken, s, faults)
      && PaymentAnswer(faults, id, s) == Http(if taken then 200 else 502)
  {
    QuietPayment(faults, id, s);
    PaymentScriptIs(PaymentOutcome(faults, id, s), id, s);
    PaymentTryRecords(faults, id, s);
    PaymentRaisesIff(faults, id, s);
    var o, n := PaymentOutcome(faults, id, s), BeforeConclusion(faults, id, s).publishes;
    ConclusionRecords(o, faults);
    AllRecords(ConclusionEffects(o), faults, n);
  }

  /** The minor units of a currency. */
  function Minor(currency: string): real {
    if currency == "JPY" then 1.0 else if currency in ["BHD", "KWD", "OMR", "TND"] then 1000.0 else 100.0
  }

  lemma RatioIs(amount: real, minor: real)
    requires minor > 0.0
    ensures amount / minor / 10000.0 == amount / (10000.0 * minor)
  {
    var q := amount / minor / 10000.0;
    assert q * (10000.0 * minor) == amount;
  }

  /** The score of a payment, told from the amount and the failing calls: the rounded
      part of 10000 units of the currency, at most 1, and at least 0.7 for an anomaly; a
      failure is reviewed with score 0. */
  lemma ScoreIs(amountMinor: nat, currency: string, round: real -> real, detector: Detector, faults: Faults)
    ensures var s := RiskOf(amountMinor, currency, round, detector, faults);
      var part := round(amountMinor as real / (10000.0 * Minor(currency)));
      var least := if detector == Answers(true) then 0.7 else part;
      if faults(ScoringPolicy) || detector.Raises? then s == Score(0.0, "review", "DOWNSTREAM_TIMEOUT_FAIL_CLOSED")
      else
        && s.risk <= 1.0 && s.risk <= (if part >= least then part else least)
        && (s.risk >= part || s.risk == 1.0) && (s.risk >= least || s.risk == 1.0)
        && s.decision == (if s.risk >= 0.7 then "review" else "allow") && s.failureReason == ""
  {
    RatioIs(amountMinor as real, Minor(currency));
    assert MinorUnits(currency) == Minor(currency);
  }
}
