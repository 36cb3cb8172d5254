/**
 What the events of the request handlers look like when they reach the publisher's
 guard (domain/events.py, lines 14-153, contexts/governance/publisher.py, lines
 50-67, and the publications of app/main.py and the services), and that the guard
 accepts every one of an ingestion and of a question.
 */
module EventPayloads {
  import opened Collections
  import opened Luhn
  import opened Redaction
  import opened Sanitizer
  import opened EventWords
  import E = Effects
  import S = SagaScripts
  import R = SagaRecords

  /** What an event carries beyond what the scripts say of it. */
  datatype Stamp = Stamp(
    eventId: string, occurredAt: string, correlation: string, causation: string, trace: string, request: string,
    reason: string, details: seq<Entry>,             // of a transition
    source: string, counts: seq<Entry>,              // of an ingestion: the source token, the counts of `redact`
    auditKey: string, error: string,                 // the key of the record written, the name of an exception class
    evidence: nat, model: string,                    // of a question
    retrievalError: Option<string>, inferenceError: Option<string>,
    transaction: string, merchant: string, amount: nat, currency: string, network: string)  // of a payment, tokenized

  function Text(key: string, s: string): Entry { Entry(key, Str(s)) }

  function Maybe(s: Option<string>): Value { if s.Some? then Str(s.value) else Null }

  /** The error detail of a compensating event. */
  function ErrorDetail(e: E.Event, st: Stamp): string {
    match e
    case IngestionCompensated(reason) => if reason == "AUDIT_WRITE_FAILED" then "audit sink unavailable" else st.error
    case TransactionCompensated(cause, _, boundary) =>
      if cause.Some? then boundary + ":" + st.error else "audit sink unavailable"
    case _ => st.error
  }

  function Status(compensated: bool): string { if compensated then "compensated" else "processed" }

  function Metadata(st: Stamp): seq<Entry> {
    [Entry("retrieved_count", Number(st.evidence as real)), Text("model", st.model),
     Entry("retrieval_error", Maybe(st.retrievalError)), Entry("llm_error", Maybe(st.inferenceError))]
  }

  /** The fields of the event's own class. */
  function OwnFields(e: E.Event, st: Stamp, env: Env): seq<Entry> {
    match e
    case Transition(from, to) =>
      [Text("request_id", st.request), Text("entity_id", st.request), Text("state_from", PhaseName(from)),
       Text("state_to", PhaseName(to)), Text("reason", st.reason),
       Entry("payload", Sanitize(Dict(st.details), "", env))]
    case Telemetry(chunks) =>
      [Text("request_id", st.request), Text("source_token", st.source),
       Entry("chunk_count", Number(chunks as real)), Entry("pii_counts", Dict(st.counts))]
    case IngestionCompensated(reason) =>
      [Text("reason", reason), Text("original_event_type", ""), Text("request_id", st.request),
       Text("source_token", st.source), Text("error_detail", ErrorDetail(e, st))]
    case RecordLogged(kind) =>
      [Text("request_id", st.request), Text("object_key", st.auditKey), Text("record_type", kind)]
    case Processed(_, compensated) =>
      [Text("request_id", st.request), Text("operation_id", st.request),
       Text("status", Status(compensated)), Entry("metadata", Dict(Metadata(st)))]
    case TransactionCompensated(cause, reason, _) =>
      [Text("reason", reason), Text("original_event_type", if cause.Some? then "TransactionProcessed" else ""),
       Text("request_id", st.request), Text("operation_id", st.request), Text("error_detail", ErrorDetail(e, st))]
    case PaymentIngested(_) =>
      [Text("transaction_token", st.transaction),
       Text("merchant_token", st.merchant),
       Entry("amount_minor", Number(st.amount as real)), Text("currency", st.currency),
       Text("payment_network", st.network), Entry("pii_tokenized", Bool(true))]
    case PaymentScored(_, decision, score, failureReason) =>
      [Text("transaction_token", st.transaction),
       Entry("risk_score", Number(score)), Text("decision", decision), Text("model_version", ModelVersion()),
       Text("failure_reason", failureReason)]
    case PaymentCompensated(_) =>
      [Text("reason", "DOWNSTREAM_TIMEOUT_FAIL_CLOSED"), Text("original_event_type", "PaymentTransactionIngested"),
       Text("transaction_token", st.transaction), Text("decision", "review"),
       Text("error_detail", ErrorDetail(e, st))]
  }

  function BaseFields(st: Stamp): seq<Entry> {
    [Text("event_id", st.eventId), Text("occurred_at", st.occurredAt), Text("correlation_id", st.correlation),
     Text("causation_id", st.causation), Text("traceparent", st.trace)]
  }

  function TailFields(e: E.Event): seq<Entry> { [Text("event_type", EventType(e)), Text("topic", Topic(e))] }

  /** `to_dict()` */
  function PayloadOf(e: E.Event, st: Stamp, env: Env): Value {
    Dict(BaseFields(st) + OwnFields(e, st, env) + TailFields(e))
  }

  // ---------- what a payload tells ----------

  /** What a payload shows of an event: all but the numbers of events and, if there is no
      cause, the boundary. */
  ghost predicate SameContent(e: E.Event, f: E.Event) {
    match e
    case Transition(_, _) => f == e
    case Telemetry(_) => f == e
    case IngestionCompensated(_) => f == e
    case RecordLogged(_) => f == e
    case Processed(_, compensated) => f.Processed? && f.compensated == compensated
    case TransactionCompensated(cause, reason, boundary) =>
      && f.TransactionCompensated? && f.reason == reason && (f.cause.Some? <==> cause.Some?)
      && (cause.Some? ==> f.boundary == boundary)
    case PaymentIngested(_) => f.PaymentIngested?
    case PaymentScored(_, decision, score, failureReason) =>
      f.PaymentScored? && f.decision == decision && f.score == score && f.failureReason == failureReason
    case PaymentCompensated(_) => f.PaymentCompensated?
  }

  lemma PartsOfPayload(base: seq<Entry>, own: seq<Entry>, tail: seq<Entry>, own2: seq<Entry>, tail2: seq<Entry>)
    requires |tail| == |tail2| && base + own + tail == base + own2 + tail2
    ensures own == own2 && tail == tail2
  {
    var s, n := base + own + tail, |base + own + tail| - |tail|;
    assert s[|base|..n] == own && s[n..] == tail;
    assert s[|base|..n] == own2 && s[n..] == tail2;
  }

  lemma SameFields(e: E.Event, f: E.Event, st: Stamp, env: Env)
    requires PayloadOf(e, st, env) == PayloadOf(f, st, env)
    ensures OwnFields(e, st, env) == OwnFields(f, st, env) && EventClass(e) == EventClass(f)
  {
    PartsOfPayload(BaseFields(st), OwnFields(e, st, env), TailFields(e), OwnFields(f, st, env), TailFields(f));
    assert TailFields(e)[0] == Text("event_type", EventType(e)) && TailFields(f)[0] == Text("event_type", EventType(f));
    TypesDiffer(e, f);
  }

  lemma BoundaryIsTold(a: string, b: string, error: string)
    requires a + ":" + error == b + ":" + error
    ensures a == b
  {
    var s, n := a + ":" + error, |a + ":" + error| - |error| - 1;
    assert s[..n] == a && s[..n] == b;
  }

  lemma StatusTells(a: bool, b: bool)
    ensures Status(a) == Status(b) <==> a == b
  {
    assert Status(a) == Status(b) ==> Status(a)[0] == Status(b)[0];
  }

  lemma TransitionIsTold(e: E.Event, f: E.Event, st: Stamp, env: Env)
    requires e.Transition? && f.Transition? && OwnFields(e, st, env) == OwnFields(f, st, env)
    ensures f == e
  {
    assert OwnFields(e, st, env)[2] == OwnFields(f, st, env)[2] && OwnFields(e, st, env)[3] == OwnFields(f, st, env)[3];
    PhasesDiffer(e.from, f.from);
    PhasesDiffer(e.to, f.to);
  }

  lemma FailureIsTold(e: E.Event, f: E.Event, st: Stamp, env: Env)
    requires e.TransactionCompensated? && f.TransactionCompensated?
    requires OwnFields(e, st, env) == OwnFields(f, st, env)
    ensures SameContent(e, f)
  {
    var own, own2 := OwnFields(e, st, env), OwnFields(f, st, env);
    assert own[0] == own2[0] && own[1] == own2[1] && own[4] == own2[4];
    assert e.cause.Some? <==> f.cause.Some?;
    if e.cause.Some? { BoundaryIsTold(e.boundary, f.boundary, st.error); }
  }

  lemma ProcessedIsTold(e: E.Event, f: E.Event, st: Stamp, env: Env)
    requires e.Processed? && f.Processed? && OwnFields(e, st, env) == OwnFields(f, st, env)
    ensures SameContent(e, f)
  {
    assert OwnFields(e, st, env)[2] == OwnFields(f, st, env)[2];
    StatusTells(e.compensated, f.compensated);
  }

  lemma OthersAreTold(e: E.Event, f: E.Event, st: Stamp, env: Env)
    requires EventClass(e) == EventClass(f) && OwnFields(e, st, env) == OwnFields(f, st, env)
    requires !e.Transition? && !e.TransactionCompensated? && !e.Processed?
    ensures SameContent(e, f)
  {
    var own, own2 := OwnFields(e, st, env), OwnFields(f, st, env);
    assert own[0] == own2[0] && own[1] == own2[1] && own[2] == own2[2];
    if e.PaymentScored? { assert own[4] == own2[4]; }
  }

  lemma OwnFieldsTell(e: E.Event, f: E.Event, st: Stamp, env: Env)
    requires EventClass(e) == EventClass(f) && OwnFields(e, st, env) == OwnFields(f, st, env)
    ensures SameContent(e, f)
  {
    if e.Transition? {
      TransitionIsTold(e, f, st, env);
    } else if e.TransactionCompensated? {
      FailureIsTold(e, f, st, env);
    } else if e.Processed? {
      ProcessedIsTold(e, f, st, env);
    } else {
      OthersAreTold(e, f, st, env);
    }
  }

  lemma SamePaymentFields(e: E.Event, f: E.Event, st: Stamp, env: Env)
    requires SameContent(e, f) && IsOfPayment(e)
    ensures OwnFields(e, st, env) == OwnFields(f, st, env)
  {}

  lemma SameQuestionFields(e: E.Event, f: E.Event, st: Stamp, env: Env)
    requires SameContent(e, f) && (e.Processed? || e.TransactionCompensated?)
    ensures OwnFields(e, st, env) == OwnFields(f, st, env)
  {}

  lemma SameContentSameFields(e: E.Event, f: E.Event, st: Stamp, env: Env)
    requires SameContent(e, f)
    ensures OwnFields(e, st, env) == OwnFields(f, st, env)
  {
    if f != e {
      if IsOfPayment(e) { SamePaymentFields(e, f, st, env); } else { SameQuestionFields(e, f, st, env); }
    }
  }

  lemma SameTail(e: E.Event, f: E.Event)
    requires EventClass(e) == EventClass(f)
    ensures TailFields(e) == TailFields(f)
  {
    TypesDiffer(e, f);
    TopicsDiffer(e, f);
  }

  lemma SameContentSamePayload(e: E.Event, f: E.Event, st: Stamp, env: Env)
    requires SameContent(e, f)
    ensures PayloadOf(e, st, env) == PayloadOf(f, st, env)
  {
    SameContentSameFields(e, f, st, env);
    SameTail(e, f);
  }

  /** With the same stamp, two events have one payload exactly if they are of one class
      with the same content: nothing that the scripts say of an event is lost. */
  lemma PayloadTellsTheEvent(e: E.Event, f: E.Event, st: Stamp, env: Env)
    ensures PayloadOf(e, st, env) == PayloadOf(f, st, env) <==> SameContent(e, f)
  {
    if SameContent(e, f) { SameContentSamePayload(e, f, st, env); }
    if PayloadOf(e, st, env) == PayloadOf(f, st, env) {
      SameFields(e, f, st, env);
      OwnFieldsTell(e, f, st, env);
    }
  }

  /** The guard refuses this event. */
  predicate Refused(e: E.Event, st: Stamp, env: Env) { !BoundarySafe(Domain(PayloadOf(e, st, env)), [], env) }

  // ---------- values that sanitizing leaves alone ----------

  /** Sanitizing leaves this entry as it is. */
  predicate CleanEntry(e: Entry, env: Env) { Sanitize(e.value, e.key, env) == e.value }

  /** `ok` holds of the entries that sanitizing leaves as they are. The lemmas on lists
      of fields take it as a parameter, so that they need not look inside. */
  ghost predicate Decides(ok: Entry -> bool, env: Env) {
    forall e: Entry {:trigger Sanitize(e.value, e.key, env)} :: ok(e) <==> CleanEntry(e, env)
  }

  ghost predicate All(ok: Entry -> bool, entries: seq<Entry>) {
    forall i :: 0 <= i < |entries| ==> ok(entries[i])
  }

  lemma AllConcat(ok: Entry -> bool, a: seq<Entry>, b: seq<Entry>)
    ensures All(ok, a + b) <==> All(ok, a) && All(ok, b)
  {
    assert forall i :: 0 <= i < |a| ==> (a + b)[i] == a[i];
    if All(ok, a + b) {
      forall i | 0 <= i < |b| ensures ok(b[i]) { assert (a + b)[|a| + i] == b[i]; }
    }
  }

  lemma DictStaysIff(ok: Entry -> bool, entries: seq<Entry>, field: string, env: Env)
    requires Decides(ok, env)
    ensures Sanitize(Dict(entries), field, env) == Dict(entries) <==> All(ok, entries)
  {
    EntriesEqualIff(Sanitize(Dict(entries), field, env).entries, entries);
    forall i | 0 <= i < |entries| ensures ok(entries[i]) <==> CleanEntry(entries[i], env) {
      var e := entries[i];
      assert Sanitize(e.value, e.key, env) == Sanitize(entries[i].value, entries[i].key, env);
    }
  }

  lemma DictEntryStays(ok: Entry -> bool, field: string, entries: seq<Entry>, env: Env)
    requires Decides(ok, env) && All(ok, entries)
    ensures ok(Entry(field, Dict(entries)))
  {
    var e := Entry(field, Dict(entries));
    DictStaysIff(ok, entries, field, env);
    assert Sanitize(e.value, e.key, env) == e.value;
  }

  lemma OtherStays(ok: Entry -> bool, field: string, v: Value, env: Env)
    requires Decides(ok, env) && (v.Null? || v.Bool? || v.Number?)
    ensures ok(Entry(field, v))
  {
    var e := Entry(field, v);
    assert Sanitize(e.value, e.key, env) == e.value;
  }

  lemma TextStaysIff(ok: Entry -> bool, field: string, s: string, env: Env)
    requires Decides(ok, env)
    ensures ok(Text(field, s)) <==> SanitizeText(s, field, env) == s
  {
    var e := Text(field, s);
    assert Sanitize(e.value, e.key, env) == Str(SanitizeText(s, field, env));
  }

  predicate Tokenized(s: string) { s == [] || IsToken(s) }

  lemma TokenStays(ok: Entry -> bool, field: string, s: string, env: Env)
    requires Decides(ok, env) && Tokenized(s)
    ensures ok(Text(field, s))
  {
    TextStaysIff(ok, field, s, env);
  }

  lemma IdentifierIsKept(field: string, s: string, env: Env)
    requires IsServerIdentifier(field)
    ensures SanitizeText(s, field, env) == s
  {
    IdentifierName(field);
  }

  lemma IdentifierStays(ok: Entry -> bool, field: string, s: string, env: Env)
    requires Decides(ok, env) && IsServerIdentifier(field)
    ensures ok(Text(field, s))
  {
    IdentifierIsKept(field, s, env);
    TextStaysIff(ok, field, s, env);
  }

  lemma RequestStays(ok: Entry -> bool, request: string, env: Env)
    requires Decides(ok, env)
    ensures ok(Text("request_id", request))
  {
    IdentifierStays(ok, "request_id", request, env);
  }

  lemma OperationStays(ok: Entry -> bool, request: string, env: Env)
    requires Decides(ok, env)
    ensures ok(Text("operation_id", request))
  {
    IdentifierStays(ok, "operation_id", request, env);
  }

  lemma PlainTextStays(ok: Entry -> bool, field: string, s: string, env: Env)
    requires Decides(ok, env) && PatternSound(env) && Unmatched(s, env) && field in TEXT_FIELDS
    ensures ok(Text(field, s))
  {
    TextFieldName(field);
    KeptIff(s, env);
    TextStaysIff(ok, field, s, env);
  }

  lemma WordStays(ok: Entry -> bool, field: string, s: string, env: Env)
    requires Decides(ok, env) && PatternSound(env) && Wordy(s) && field in TEXT_FIELDS
    ensures ok(Text(field, s))
  {
    WordyIsUnmatched(s, env);
    PlainTextStays(ok, field, s, env);
  }

  // ---------- what the handlers put into their events ----------

  predicate IsBoundary(b: string) { b == "retrieval_store" || b == "llm_inference" }

  /** An event that some handler announces, with the words it uses. */
  predicate Scripted(e: E.Event) {
    match e
    case IngestionCompensated(reason) =>
      reason == "STORE_ADD_FAILED" || reason == "AUDIT_WRITE_FAILED" || reason == "UNHANDLED_FAILURE"
    case RecordLogged(kind) => kind == "ingest" || kind == "ask"
    case TransactionCompensated(cause, reason, boundary) =>
      if cause.Some? then reason == S.FAIL_SAFE && IsBoundary(boundary) else reason == "AUDIT_WRITE_FAILED"
    case PaymentScored(_, decision, _, failureReason) =>
      && (decision == "review" || decision == "allow")
      && (failureReason == "" || failureReason == "DOWNSTREAM_TIMEOUT_FAIL_CLOSED")
    case _ => true
  }

  /** The details of a transition: none, the source token, the audit key, a flag, or
      the score and the decision. */
  ghost predicate Detailed(details: seq<Entry>) {
    || details == []
    || (exists source :: Tokenized(source) && details == [Text("source_token", source)])
    || (exists key :: details == [Text("audit_key", key)])
    || details == [Entry("payment_requested", Bool(true))]
    || (exists score, decision :: (decision == "review" || decision == "allow")
                                  && details == [Entry("risk_score", Number(score)), Text("decision", decision)])
  }

  /** The names of exception and model classes in an event are no PII. */
  ghost predicate NamesFit(e: E.Event, st: Stamp, env: Env) {
    match e
    case IngestionCompensated(_) => Unmatched(ErrorDetail(e, st), env)
    case TransactionCompensated(_, _, _) => Unmatched(ErrorDetail(e, st), env)
    case PaymentCompensated(_) => Unmatched(ErrorDetail(e, st), env)
    case Processed(_, _) =>
      && Unmatched(st.model, env)
      && (st.retrievalError.Some? ==> Unmatched(st.retrievalError.value, env))
      && (st.inferenceError.Some? ==> Unmatched(st.inferenceError.value, env))
    case _ => true
  }

  /** What the code, the clock and the class names guarantee of a stamp. */
  ghost predicate Fits(e: E.Event, st: Stamp, env: Env) {
    && ScansAsTime(st.occurredAt, env)
    && NamesFit(e, st, env)
    && (e.Transition? ==>
          && IsReason(st.reason) && Detailed(st.details))
    && (forall i :: 0 <= i < |st.counts| ==> st.counts[i].value.Number?)
    && Tokenized(st.source) && Tokenized(st.transaction) && Tokenized(st.merchant) && Wordy(st.currency)
  }

  /** The source tokens that `ingest` makes are such. */
  lemma SourceTokensFit(source: string, env: Env)
    requires HexDigest(env)
    ensures Tokenized(SanitizeText(source, "source", env))
  {
    SourceIsSecret();
    if source != [] { SecretBecomesToken(source, "source", env); }
  }

  /** So are the transaction and merchant tokens of a payment. */
  lemma PaymentTokensFit(kind: string, value: string, env: Env)
    requires HexDigest(env) && (kind == "payment_transaction" || kind == "payment_merchant")
    ensures Tokenized(TokenFor(kind, value, env))
  {
    TokenIsToken(kind, value, env);
  }

  lemma PaymentKindKeepsText(kind: string)
    requires kind == "payment_transaction" || kind == "payment_merchant"
    ensures KeepsText(kind)
  {
    assert |Lower(kind)| > 5;
  }

  /** Two transactions, or two merchants, get one token exactly when they agree up to outer
      spaces or their messages collide. */
  lemma PaymentTokens(kind: string, a: string, b: string, env: Env)
    requires kind == "payment_transaction" || kind == "payment_merchant"
    ensures TokenFor(kind, a, env) == TokenFor(kind, b, env) <==> Strip(a) == Strip(b) || Collide(kind, a, b, env)
  {
    PaymentKindKeepsText(kind);
    PlainKindTokens(kind, a, b, env);
  }

  /** The environment is a keyed digest of 32 hex digits and the pattern scan. */
  ghost predicate Sound(env: Env) { HexDigest(env) && PatternSound(env) }

  lemma PrefixedIsWordy(boundary: string, name: string)
    requires IsBoundary(boundary) && Wordy(name)
    ensures Wordy(boundary + ":" + name)
  {
    var s := boundary + ":" + name;
    forall i | 0 <= i < |s| ensures s[i] != '@' && (i + 1 < |s| ==> !IsDigit(s[i])) {
      if i < |boundary| { assert s[i] == boundary[i]; }
      else if i > |boundary| { assert s[i] == name[i - |boundary| - 1]; }
    }
  }

  /** Class names without '@' and with at most a final digit fit. */
  lemma WordyNamesFit(e: E.Event, st: Stamp, env: Env)
    requires PatternSound(env) && Wordy(st.error) && Wordy(st.model)
    requires st.retrievalError.Some? ==> Wordy(st.retrievalError.value)
    requires st.inferenceError.Some? ==> Wordy(st.inferenceError.value)
    requires e.TransactionCompensated? && e.cause.Some? ==> IsBoundary(e.boundary)
    ensures NamesFit(e, st, env)
  {
    WordyIsUnmatched(st.error, env);
    WordyIsUnmatched(st.model, env);
    if st.retrievalError.Some? { WordyIsUnmatched(st.retrievalError.value, env); }
    if st.inferenceError.Some? { WordyIsUnmatched(st.inferenceError.value, env); }
    WordIsWordy("audit sink unavailable");
    WordyIsUnmatched("audit sink unavailable", env);
    if e.TransactionCompensated? && e.cause.Some? {
      PrefixedIsWordy(e.boundary, st.error);
      WordyIsUnmatched(ErrorDetail(e, st), env);
    }
  }

  // ---------- field by field ----------

  lemma TimeStays(ok: Entry -> bool, time: string, env: Env)
    requires Decides(ok, env) && PatternSound(env) && ScansAsTime(time, env)
    ensures ok(Text("occurred_at", time))
  {
    PlainTextStays(ok, "occurred_at", time, env);
  }

  lemma EventIdStays(ok: Entry -> bool, id: string, trace: string, env: Env)
    requires Decides(ok, env)
    ensures ok(Text("event_id", id)) && ok(Text("traceparent", trace))
  {
    IdentifierStays(ok, "event_id", id, env);
    IdentifierStays(ok, "traceparent", trace, env);
  }

  lemma CausesStay(ok: Entry -> bool, correlation: string, causation: string, env: Env)
    requires Decides(ok, env)
    ensures ok(Text("correlation_id", correlation)) && ok(Text("causation_id", causation))
  {
    IdentifierStays(ok, "correlation_id", correlation, env);
    IdentifierStays(ok, "causation_id", causation, env);
  }

  lemma BaseIsClean(ok: Entry -> bool, st: Stamp, env: Env)
    requires Decides(ok, env) && PatternSound(env) && ScansAsTime(st.occurredAt, env)
    ensures All(ok, BaseFields(st))
  {
    EventIdStays(ok, st.eventId, st.trace, env);
    TimeStays(ok, st.occurredAt, env);
    CausesStay(ok, st.correlation, st.causation, env);
  }

  lemma TailIsClean(ok: Entry -> bool, e: E.Event, env: Env)
    requires Decides(ok, env) && PatternSound(env)
    ensures All(ok, TailFields(e))
  {
    TypeIsWordy(e);
    TopicIsWordy(e);
    WordStays(ok, "event_type", EventType(e), env);
    WordStays(ok, "topic", Topic(e), env);
  }

  lemma DecisionStays(ok: Entry -> bool, decision: string, env: Env)
    requires Decides(ok, env) && PatternSound(env) && (decision == "review" || decision == "allow")
    ensures ok(Text("decision", decision))
  {
    WordIsWordy(decision);
    WordStays(ok, "decision", decision, env);
  }

  lemma DetailsAreClean(ok: Entry -> bool, details: seq<Entry>, env: Env)
    requires Decides(ok, env) && Sound(env) && Detailed(details)
    ensures All(ok, details)
  {
    if source :| Tokenized(source) && details == [Text("source_token", source)] {
      TokenStays(ok, "source_token", source, env);
    } else if key :| details == [Text("audit_key", key)] {
      IdentifierStays(ok, "audit_key", key, env);
    } else if score, decision :| (decision == "review" || decision == "allow")
                                 && details == [Entry("risk_score", Number(score)), Text("decision", decision)] {
      OtherStays(ok, "risk_score", Number(score), env);
      DecisionStays(ok, decision, env);
    } else {
      OtherStays(ok, "payment_requested", Bool(true), env);
    }
  }

  /** What `record_transition` attaches is already sanitized. */
  lemma PayloadStays(ok: Entry -> bool, details: seq<Entry>, env: Env)
    requires Decides(ok, env) && Sound(env) && Detailed(details)
    ensures ok(Entry("payload", Sanitize(Dict(details), "", env)))
  {
    DetailsAreClean(ok, details, env);
    DictStaysIff(ok, details, "", env);
    DictEntryStays(ok, "payload", details, env);
  }

  lemma PhasesStay(ok: Entry -> bool, from: E.Phase, to: E.Phase, env: Env)
    requires Decides(ok, env) && PatternSound(env)
    ensures ok(Text("state_from", PhaseName(from))) && ok(Text("state_to", PhaseName(to)))
  {
    PhaseIsWordy(from);
    PhaseIsWordy(to);
    WordStays(ok, "state_from", PhaseName(from), env);
    WordStays(ok, "state_to", PhaseName(to), env);
  }

  lemma ReasonStays(ok: Entry -> bool, reason: string, env: Env)
    requires Decides(ok, env) && PatternSound(env) && IsReason(reason)
    ensures ok(Text("reason", reason))
  {
    WordIsWordy(reason);
    WordStays(ok, "reason", reason, env);
  }

  lemma TransitionIsClean(ok: Entry -> bool, e: E.Event, st: Stamp, env: Env)
    requires Decides(ok, env) && Sound(env) && IsReason(st.reason) && Detailed(st.details) && e.Transition?
    ensures All(ok, OwnFields(e, st, env))
  {
    RequestStays(ok, st.request, env);
    IdentifierStays(ok, "entity_id", st.request, env);
    PhasesStay(ok, e.from, e.to, env);
    ReasonStays(ok, st.reason, env);
    PayloadStays(ok, st.details, env);
  }

  lemma CountsStay(ok: Entry -> bool, counts: seq<Entry>, env: Env)
    requires Decides(ok, env) && forall i :: 0 <= i < |counts| ==> counts[i].value.Number?
    ensures ok(Entry("pii_counts", Dict(counts)))
  {
    forall i | 0 <= i < |counts| ensures ok(counts[i]) { OtherStays(ok, counts[i].key, counts[i].value, env); }
    DictEntryStays(ok, "pii_counts", counts, env);
  }

  lemma TelemetryIsClean(ok: Entry -> bool, e: E.Event, st: Stamp, env: Env)
    requires Decides(ok, env) && Sound(env) && Fits(e, st, env) && e.Telemetry?
    ensures All(ok, OwnFields(e, st, env))
  {
    RequestStays(ok, st.request, env);
    TokenStays(ok, "source_token", st.source, env);
    OtherStays(ok, "chunk_count", Number(e.chunks as real), env);
    CountsStay(ok, st.counts, env);
  }

  lemma CodeStays(ok: Entry -> bool, code: string, env: Env)
    requires Decides(ok, env) && PatternSound(env) && code in CODES
    ensures ok(Text("reason", code))
  {
    WordIsWordy(code);
    WordStays(ok, "reason", code, env);
  }

  lemma OriginalTypeStays(ok: Entry -> bool, s: string, env: Env)
    requires Decides(ok, env) && PatternSound(env)
    requires s == "" || s == "TransactionProcessed" || s == "PaymentTransactionIngested"
    ensures ok(Text("original_event_type", s))
  {
    if s == "" {
      TokenStays(ok, "original_event_type", s, env);
    } else {
      TypeIsWordy(E.Processed(0, false));
      TypeIsWordy(E.PaymentIngested(0));
      WordStays(ok, "original_event_type", s, env);
    }
  }

  lemma NoticeIsClean(ok: Entry -> bool, e: E.Event, st: Stamp, env: Env)
    requires Decides(ok, env) && Sound(env) && Scripted(e) && e.IngestionCompensated?
    requires Tokenized(st.source) && NamesFit(e, st, env)
    ensures All(ok, OwnFields(e, st, env))
  {
    RequestStays(ok, st.request, env);
    TokenStays(ok, "source_token", st.source, env);
    CodeStays(ok, e.reason, env);
    OriginalTypeStays(ok, "", env);
    PlainTextStays(ok, "error_detail", ErrorDetail(e, st), env);
  }

  lemma RecordIsClean(ok: Entry -> bool, e: E.Event, st: Stamp, env: Env)
    requires Decides(ok, env) && Sound(env) && Scripted(e) && e.RecordLogged?
    ensures All(ok, OwnFields(e, st, env))
  {
    RequestStays(ok, st.request, env);
    IdentifierStays(ok, "object_key", st.auditKey, env);
    WordIsWordy(e.kind);
    WordStays(ok, "record_type", e.kind, env);
  }

  lemma NameStays(ok: Entry -> bool, field: string, name: Option<string>, env: Env)
    requires Decides(ok, env) && PatternSound(env) && field in TEXT_FIELDS
    requires name.Some? ==> Unmatched(name.value, env)
    ensures ok(Entry(field, Maybe(name)))
  {
    if name.Some? { PlainTextStays(ok, field, name.value, env); } else { OtherStays(ok, field, Null, env); }
  }

  lemma MetadataIsClean(ok: Entry -> bool, e: E.Event, st: Stamp, env: Env)
    requires Decides(ok, env) && PatternSound(env) && NamesFit(e, st, env) && e.Processed?
    ensures All(ok, Metadata(st))
  {
    OtherStays(ok, "retrieved_count", Number(st.evidence as real), env);
    PlainTextStays(ok, "model", st.model, env);
    NameStays(ok, "retrieval_error", st.retrievalError, env);
    NameStays(ok, "llm_error", st.inferenceError, env);
  }

  lemma ProcessedIsClean(ok: Entry -> bool, e: E.Event, st: Stamp, env: Env)
    requires Decides(ok, env) && Sound(env) && NamesFit(e, st, env) && e.Processed?
    ensures All(ok, OwnFields(e, st, env))
  {
    RequestStays(ok, st.request, env);
    OperationStays(ok, st.request, env);
    WordIsWordy(Status(e.compensated));
    WordStays(ok, "status", Status(e.compensated), env);
    MetadataIsClean(ok, e, st, env);
    DictEntryStays(ok, "metadata", Metadata(st), env);
  }

  lemma FailureIsClean(ok: Entry -> bool, e: E.Event, st: Stamp, env: Env)
    requires Decides(ok, env) && Sound(env) && NamesFit(e, st, env) && Scripted(e) && e.TransactionCompensated?
    ensures All(ok, OwnFields(e, st, env))
  {
    RequestStays(ok, st.request, env);
    OperationStays(ok, st.request, env);
    CodeStays(ok, e.reason, env);
    PlainTextStays(ok, "error_detail", ErrorDetail(e, st), env);
    OriginalTypeStays(ok, if e.cause.Some? then "TransactionProcessed" else "", env);
  }

  lemma FailureReasonStays(ok: Entry -> bool, reason: string, env: Env)
    requires Decides(ok, env) && PatternSound(env) && (reason == "" || reason == "DOWNSTREAM_TIMEOUT_FAIL_CLOSED")
    ensures ok(Text("failure_reason", reason))
  {
    if reason == "" {
      TokenStays(ok, "failure_reason", reason, env);
    } else {
      WordIsWordy(reason);
      WordStays(ok, "failure_reason", reason, env);
    }
  }

  lemma ScoredIsClean(ok: Entry -> bool, e: E.Event, st: Stamp, env: Env)
    requires Decides(ok, env) && Sound(env) && Tokenized(st.transaction) && Scripted(e) && e.PaymentScored?
    ensures All(ok, OwnFields(e, st, env))
  {
    TokenStays(ok, "transaction_token", st.transaction, env);
    OtherStays(ok, "risk_score", Number(e.score), env);
    DecisionStays(ok, e.decision, env);
    ModelVersionIsWordy();
    WordStays(ok, "model_version", ModelVersion(), env);
    FailureReasonStays(ok, e.failureReason, env);
  }

  lemma PaymentFailureIsClean(ok: Entry -> bool, e: E.Event, st: Stamp, env: Env)
    requires Decides(ok, env) && Sound(env) && Tokenized(st.transaction) && NamesFit(e, st, env)
    requires e.PaymentCompensated?
    ensures All(ok, OwnFields(e, st, env))
  {
    CodeStays(ok, "DOWNSTREAM_TIMEOUT_FAIL_CLOSED", env);
    OriginalTypeStays(ok, "PaymentTransactionIngested", env);
    TokenStays(ok, "transaction_token", st.transaction, env);
    DecisionStays(ok, "review", env);
    PlainTextStays(ok, "error_detail", ErrorDetail(e, st), env);
  }

  lemma IngestedIsCleanIff(ok: Entry -> bool, e: E.Event, st: Stamp, env: Env)
    requires Decides(ok, env) && Sound(env) && Fits(e, st, env) && e.PaymentIngested?
    ensures All(ok, OwnFields(e, st, env)) <==> ok(Text("payment_network", st.network))
  {
    TokenStays(ok, "transaction_token", st.transaction, env);
    TokenStays(ok, "merchant_token", st.merchant, env);
    OtherStays(ok, "amount_minor", Number(st.amount as real), env);
    WordStays(ok, "currency", st.currency, env);
    OtherStays(ok, "pii_tokenized", Bool(true), env);
    assert OwnFields(e, st, env)[4] == Text("payment_network", st.network);
  }

  // ---------- the guard ----------

  lemma RefusedIff(ok: Entry -> bool, e: E.Event, st: Stamp, env: Env)
    requires Decides(ok, env) && Sound(env) && ScansAsTime(st.occurredAt, env)
    ensures Refused(e, st, env) <==> !All(ok, OwnFields(e, st, env))
  {
    var base, own, tail := BaseFields(st), OwnFields(e, st, env), TailFields(e);
    BaseIsClean(ok, st, env);
    TailIsClean(ok, e, env);
    DictStaysIff(ok, base + own + tail, "", env);
    AllConcat(ok, base + own, tail);
    AllConcat(ok, base, own);
  }

  lemma OwnFieldsAreClean(ok: Entry -> bool, e: E.Event, st: Stamp, env: Env)
    requires Decides(ok, env) && Sound(env) && Scripted(e) && Fits(e, st, env) && !e.PaymentIngested?
    ensures All(ok, OwnFields(e, st, env))
  {
    match e
    case Transition(_, _) => TransitionIsClean(ok, e, st, env);
    case Telemetry(_) => TelemetryIsClean(ok, e, st, env);
    case IngestionCompensated(_) => NoticeIsClean(ok, e, st, env);
    case RecordLogged(_) => RecordIsClean(ok, e, st, env);
    case Processed(_, _) => ProcessedIsClean(ok, e, st, env);
    case TransactionCompensated(_, _, _) => FailureIsClean(ok, e, st, env);
    case PaymentScored(_, _, _, _) => ScoredIsClean(ok, e, st, env);
    case PaymentCompensated(_) => PaymentFailureIsClean(ok, e, st, env);
  }

  /** The text is no token, and the scan finds more than time stamps in it. */
  ghost predicate Redacted(s: string, env: Env) { !IsToken(s) && !Unmatched(s, env) }

  lemma OrdinaryStaysIff(s: string, field: string, env: Env)
    requires PatternSound(env) && KindOfField(field).Ordinary?
    ensures SanitizeText(s, field, env) == s <==> !Redacted(s, env)
  {
    EmptyIsKept(env);
    KeptIff(s, env);
  }

  lemma NetworkStaysIff(network: string, env: Env)
    requires PatternSound(env)
    ensures SanitizeText(network, "payment_network", env) == network <==> !Redacted(network, env)
  {
    LongFieldIsOrdinary("payment_network");
    OrdinaryStaysIff(network, "payment_network", env);
  }

  /** The guard accepts every event that a handler announces, except for a payment in
      whose network name the scan finds a match. */
  lemma ScriptedIsAccepted(e: E.Event, st: Stamp, env: Env)
    requires Sound(env) && Scripted(e) && Fits(e, st, env)
    ensures Refused(e, st, env) <==> e.PaymentIngested? && Redacted(st.network, env)
  {
    var ok := (x: Entry) => CleanEntry(x, env);
    RefusedIff(ok, e, st, env);
    if e.PaymentIngested? {
      IngestedIsCleanIff(ok, e, st, env);
      TextStaysIff(ok, "payment_network", st.network, env);
      NetworkStaysIff(st.network, env);
    } else {
      OwnFieldsAreClean(ok, e, st, env);
    }
  }

  // ---------- what this means for the handlers ----------

  /** Publishing raises exactly when the guard refuses the event. */
  ghost predicate GuardDecides(faults: E.Faults, stamps: nat -> Stamp, env: Env) {
    forall n, e :: faults(E.Publish(n, e)) <==> Refused(e, stamps(n), env)
  }

  ghost predicate AllFit(events: seq<E.Event>, stamps: nat -> Stamp, env: Env) {
    forall n :: 0 <= n < |events| ==>
      Scripted(events[n]) && !events[n].PaymentIngested? && Fits(events[n], stamps(n), env)
  }

  lemma FittingIsQuiet(events: seq<E.Event>, faults: E.Faults, stamps: nat -> Stamp, env: Env)
    requires Sound(env) && GuardDecides(faults, stamps, env) && AllFit(events, stamps, env)
    ensures E.Quiet(events, faults, 0)
  {
    forall n | 0 <= n < |events| ensures !faults(E.Publish(0 + n, events[n])) {
      ScriptedIsAccepted(events[n], stamps(n), env);
    }
  }

  lemma IngestionIsScripted(o: S.Ingestion, chunks: nat, n: nat)
    requires n < |S.IngestionEvents(o, chunks)|
    ensures Scripted(S.IngestionEvents(o, chunks)[n]) && !S.IngestionEvents(o, chunks)[n].PaymentIngested?
  {}

  /**
   The publications of an ingestion never raise: it publishes its script with exactly
   one terminal transition, COMPLETED exactly when the answer is 200, and the audit
   trail follows what was published.
   */
  lemma IngestionIsNeverRefused(faults: E.Faults, chunks: nat, stamps: nat -> Stamp, env: Env)
    requires Sound(env) && GuardDecides(faults, stamps, env)
    requires forall n :: 0 <= n < |S.IngestionEvents(S.IngestionOutcome(faults), chunks)| ==>
               Fits(S.IngestionEvents(S.IngestionOutcome(faults), chunks)[n], stamps(n), env)
    ensures var r, o := S.IngestionRun(faults, chunks), S.IngestionOutcome(faults);
      && !r.raised && r.published == S.IngestionEvents(o, chunks)
      && S.IngestionAnswer(faults, chunks) == S.Http(S.IngestionStatus(o))
      && E.Ends(r.published) == [E.End(S.IngestionStatus(o) == 200)]
      && E.TrailFollows(r)
    ensures S.IngestionRun(faults, chunks).published == R.IngestionTold(faults, chunks)
    ensures S.IngestionRun(faults, chunks).audited == R.IngestionKept(faults)
  {
    var o := S.IngestionOutcome(faults);
    forall n | 0 <= n < |S.IngestionEvents(o, chunks)|
      ensures Scripted(S.IngestionEvents(o, chunks)[n]) && !S.IngestionEvents(o, chunks)[n].PaymentIngested?
    {
      IngestionIsScripted(o, chunks, n);
    }
    FittingIsQuiet(S.IngestionEvents(o, chunks), faults, stamps, env);
    S.IngestionFollowsItsScript(faults, chunks);
    S.IngestionEndsOnce(o, chunks);
    S.QuietIngestionHasNoOrphans(faults, chunks);
    S.IngestionTrail(faults, chunks);
    R.IngestionScriptIs(faults, chunks);
    R.QuietIngestion(faults, chunks);
  }

  lemma AskIsScripted(id: nat, failed: Option<string>, auditFails: bool, n: nat)
    requires n < |S.AskEvents(id, failed, auditFails)| && (failed.Some? ==> IsBoundary(failed.value))
    ensures Scripted(S.AskEvents(id, failed, auditFails)[n]) && !S.AskEvents(id, failed, auditFails)[n].PaymentIngested?
  {}

  /**
   Nor do those of a question: it publishes its script with exactly one terminal
   transition, unless its model client cannot be set up.
   */
  lemma AskIsNeverRefused(id: nat, failed: Option<string>, modelWanted: bool, faults: E.Faults,
                          stamps: nat -> Stamp, env: Env)
    requires Sound(env) && GuardDecides(faults, stamps, env) && (failed.Some? ==> IsBoundary(failed.value))
    requires forall n :: 0 <= n < |S.AskEvents(id, failed, faults(E.RequestAudit))| ==>
               Fits(S.AskEvents(id, failed, faults(E.RequestAudit))[n], stamps(n), env)
    ensures var r, events := S.AskRun(id, failed, modelWanted, faults), S.AskEvents(id, failed, faults(E.RequestAudit));
      var stuck := modelWanted && faults(E.ModelSetup);
      && r.published == (if stuck then [E.START] else events)
      && S.AskAnswer(id, failed, modelWanted, faults) ==
         (if stuck then S.Escaped else S.Http(if faults(E.RequestAudit) then 503 else 200))
      && E.Ends(r.published) == (if stuck then [] else [E.End(failed.None? && !faults(E.RequestAudit))])
      && E.TrailFollows(r)
      && (!stuck ==> r.published == R.AskTold(id, failed, faults) && r.audited == R.AskKept(failed, faults))
  {
    var events := S.AskEvents(id, failed, faults(E.RequestAudit));
    forall n | 0 <= n < |events| ensures Scripted(events[n]) && !events[n].PaymentIngested? {
      AskIsScripted(id, failed, faults(E.RequestAudit), n);
    }
    FittingIsQuiet(events, faults, stamps, env);
    S.QuietQuestion(id, failed, modelWanted, faults);
    S.AskTrail(id, failed, modelWanted, faults);
    R.AskScriptIs(id, failed, faults);
    if !(modelWanted && faults(E.ModelSetup)) { R.QuietAsk(id, failed, modelWanted, faults); }
  }

  predicate IsAlphanumeric(c: char) { IsDigit(c) || 'a' <= c <= 'z' || 'A' <= c <= 'Z' }

  /** `^[A-Za-z0-9][A-Za-z0-9._:-]{0,127}$`, at most 32 characters. */
  predicate IsNetworkName(s: string) {
    && 1 <= |s| <= 32 && IsAlphanumeric(s[0])
    && forall i :: 1 <= i < |s| ==> IsAlphanumeric(s[i]) || s[i] == '.' || s[i] == '_' || s[i] == ':' || s[i] == '-'
  }

  lemma NetworkNameIsNoToken(network: string)
    requires IsNetworkName(network)
    ensures !IsToken(network)
  {}

  predicate IsScore(s: S.Score) {
    && (s.decision == "review" || s.decision == "allow")
    && (s.failureReason == "" || s.failureReason == "DOWNSTREAM_TIMEOUT_FAIL_CLOSED")
  }

  lemma RisksAreScores(amountMinor: nat, currency: string, round: real -> real, detector: S.Detector, faults: E.Faults)
    ensures IsScore(S.RiskOf(amountMinor, currency, round, detector, faults))
  {}

  predicate IsPaymentEvent(id: nat, s: S.Score, e: E.Event) {
    e == E.START || e == E.PaymentIngested(id) || e == E.End(true) || e == E.End(false) || e in S.ScoreEvents(id, s)
  }

  lemma PaymentEventsAreScripted(id: nat, s: S.Score, e: E.Event)
    requires IsScore(s) && IsPaymentEvent(id, s, e)
    ensures Scripted(e) && (e.PaymentIngested? ==> e == E.PaymentIngested(id))
  {}

  /** The stamps of a payment fit its events, and its network name passed the check. */
  ghost predicate PaymentFits(id: nat, s: S.Score, stamps: nat -> Stamp, env: Env) {
    && IsNetworkName(stamps(1).network)
    && forall n, e :: IsPaymentEvent(id, s, e) ==> Fits(e, stamps(n), env)
  }

  lemma PaymentPublication(faults: E.Faults, n: nat, e: E.Event, stamps: nat -> Stamp, env: Env)
    requires Sound(env) && GuardDecides(faults, stamps, env) && Scripted(e) && Fits(e, stamps(n), env)
    ensures faults(E.Publish(n, e)) <==> e.PaymentIngested? && Redacted(stamps(n).network, env)
  {
    ScriptedIsAccepted(e, stamps(n), env);
  }

  lemma PaymentPublications(faults: E.Faults, id: nat, s: S.Score, stamps: nat -> Stamp, env: Env)
    requires Sound(env) && GuardDecides(faults, stamps, env) && IsScore(s) && PaymentFits(id, s, stamps, env)
    ensures S.QuietButIntake(faults, id, s)
    ensures faults(E.Publish(1, E.PaymentIngested(id))) <==> !Unmatched(stamps(1).network, env)
  {
    S.ScoreFacts(id, s);
    forall n, e | e == E.START || e == E.End(true) || e == E.End(false) || e in S.ScoreEvents(id, s)
      ensures !faults(E.Publish(n, e))
    {
      assert IsPaymentEvent(id, s, e) && !e.PaymentIngested?;
      PaymentEventsAreScripted(id, s, e);
      PaymentPublication(faults, n, e, stamps, env);
    }
    assert IsPaymentEvent(id, s, E.PaymentIngested(id));
    PaymentPublication(faults, 1, E.PaymentIngested(id), stamps, env);
    NetworkNameIsNoToken(stamps(1).network);
  }

  /** A score that allows the payment was published. */
  ghost predicate Allows(events: seq<E.Event>) {
    exists e :: e in events && e.PaymentScored? && e.decision == "allow"
  }

  lemma AllowedEvents(id: nat, s: S.Score, o: S.Payment)
    ensures Allows(S.PaymentEvents(o, id, s)) <==> !o.Unavailable? && s.decision == "allow"
  {
    var scored := E.PaymentScored(id, s.decision, s.risk, s.failureReason);
    assert scored in S.ScoreEvents(id, s);
    assert forall e :: e in S.ScoreEvents(id, s) && e.PaymentScored? ==> e == scored;
  }

  /**
   A payment always gets an answer. Its `try` block fails exactly when intake does or
   the scan finds a match other than a time stamp in the network name, which the check
   of the field accepts.
   */
  lemma PaymentIsRefusedIff(faults: E.Faults, id: nat, s: S.Score, stamps: nat -> Stamp, env: Env)
    requires Sound(env) && GuardDecides(faults, stamps, env) && IsScore(s) && PaymentFits(id, s, stamps, env)
    ensures var r, o := S.PaymentRun(faults, id, s), S.PaymentOutcome(faults, id, s);
      && (o.Unavailable? <==> faults(E.PaymentIntake) || !Unmatched(stamps(1).network, env))
      && S.PaymentAnswer(faults, id, s) == S.Http(if o.Unavailable? then 502 else 200)
      && r.published == S.PaymentEvents(o, id, s) && E.Ends(r.published) == [E.End(o.Decided?)]
      && E.TrailFollows(r)
      && r.published == R.PaymentTold(id, !o.Unavailable?, s)
      && r.audited == R.PaymentKept(!o.Unavailable?, s, faults)
  {
    PaymentPublications(faults, id, s, stamps, env);
    S.QuietPayment(faults, id, s);
    R.QuietPaymentIs(faults, id, s);
  }

  /**
   So, with the score that the code computes: a payment ends exactly once, COMPLETED if
   and only if intake succeeds, the scan finds nothing but time stamps in the network
   name, and scoring does not fail; and exactly then a score below 0.7 without an
   anomaly is announced as allowed.
   */
  lemma PaymentEndsAs(faults: E.Faults, id: nat, amountMinor: nat, currency: string, round: real -> real,
                      detector: S.Detector, stamps: nat -> Stamp, env: Env)
    requires Sound(env) && GuardDecides(faults, stamps, env)
    requires PaymentFits(id, S.RiskOf(amountMinor, currency, round, detector, faults), stamps, env)
    ensures var s := S.RiskOf(amountMinor, currency, round, detector, faults);
      var taken := !faults(E.PaymentIntake) && Unmatched(stamps(1).network, env);
      var r, scored := S.PaymentRun(faults, id, s), !S.ScoringFails(faults, detector);
      && E.Ends(r.published) == [E.End(taken && scored)]
      && S.PaymentAnswer(faults, id, s) == S.Http(if taken then 200 else 502)
      && (Allows(r.published) <==>
            taken && scored && detector != S.Answers(true) && S.BaselineScore(amountMinor, currency, round) < 0.7)
      && E.TrailFollows(r)
  {
    var s := S.RiskOf(amountMinor, currency, round, detector, faults);
    RisksAreScores(amountMinor, currency, round, detector, faults);
    PaymentIsRefusedIff(faults, id, s, stamps, env);
    S.AllowedIff(faults, detector, amountMinor, currency, round);
    AllowedEvents(id, s, S.PaymentOutcome(faults, id, s));
  }

  /** A card number passes the check of the field and is refused by the guard. */
  lemma CardNetworkIsRefused(id: nat, st: Stamp, env: Env)
    requires Sound(env) && Fits(E.PaymentIngested(id), st, env)
    requires IsNetworkName(st.network) && env.scan(st.network) == [Match("card", st.network)]
    ensures Refused(E.PaymentIngested(id), st, env)
  {
    assert IsPii(env.scan(st.network)[0]);
    NetworkNameIsNoToken(st.network);
    ScriptedIsAccepted(E.PaymentIngested(id), st, env);
  }

  lemma CardNumberIsANetworkName()
    ensures IsNetworkName("4111111111111111")
  {}

  /** Digits alone are accepted at any length that a card number has, and up to 32. */
  lemma DigitsAreANetworkName(s: string)
    requires forall i :: 0 <= i < |s| ==> IsDigit(s[i])
    ensures IsNetworkName(s) <==> 1 <= |s| <= 32
  {}
}
