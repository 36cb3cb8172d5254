/**
 The words that the code itself puts into events: field names, event types, topics,
 states, reasons and codes (domain/events.py, lines 14-153, and the publications of
 app/main.py and the services).

 One table each, and what sanitizing needs to know of it: the names of fields are in
 lower case and not secret, and no other word has an '@' or a digit, except for the
 digit that ends a version.
 */
module EventWords {
  import opened Luhn
  import opened Redaction
  import opened Sanitizer
  import E = Effects
  import S = SagaScripts

  // ---------- field names ----------

  /** The fields with texts that are neither identifiers nor tokens. */
  const TEXT_FIELDS := ["occurred_at", "event_type", "topic", "state_from", "state_to", "reason", "record_type",
                        "status", "model", "retrieval_error", "llm_error", "error_detail", "currency",
                        "payment_network", "decision", "model_version", "failure_reason", "original_event_type"]

  lemma TextFieldLetters(field: string, c: char)
    requires field in TEXT_FIELDS && c in field
    ensures c >= '_'
  {}

  lemma IdentifierLetters(field: string, c: char)
    requires IsServerIdentifier(field) && c in field
    ensures c >= '_'
  {}

  lemma TextFieldIsNotSecret(field: string)
    requires field in TEXT_FIELDS
    ensures !IsSecret(field)
  {}

  lemma TextFieldHasNoSuffix(field: string)
    requires field in TEXT_FIELDS
    ensures WithoutTokenSuffix(field) == field
  {
    var n := |field|;
    assert n >= 6 ==> field[n - 6..][4] == field[n - 2] && field[n - 6..][5] == field[n - 1];
  }

  lemma LowerStays(s: string)
    requires forall c :: c in s ==> c >= '_'
    ensures Lower(s) == s
  {
    forall i | 0 <= i < |s| ensures LowerChar(s[i]) == s[i] { assert s[i] in s; }
  }

  lemma TextFieldName(field: string)
    requires field in TEXT_FIELDS
    ensures FieldName(field) == field && !IsSecret(field)
  {
    forall c | c in field ensures c >= '_' { TextFieldLetters(field, c); }
    LowerStays(field);
    TextFieldHasNoSuffix(field);
    TextFieldIsNotSecret(field);
  }

  lemma IdentifierName(field: string)
    requires IsServerIdentifier(field)
    ensures FieldName(field) == field
  {
    forall c | c in field ensures c >= '_' { IdentifierLetters(field, c); }
    LowerStays(field);
    SuffixIsDropped(field);
  }

  lemma IdentifierLengths(name: string)
    requires IsServerIdentifier(name)
    ensures 8 <= |name| <= 14
  {}

  lemma LongFieldIsOrdinary(field: string)
    requires field in TEXT_FIELDS && |field| >= 15
    ensures KindOfField(field).Ordinary?
  {
    TextFieldName(field);
    if IsServerIdentifier(field) { IdentifierLengths(field); }
  }

  lemma ShortFieldIsSecret(field: string)
    requires IsSecret(field) && |field| == 6 && field[0] != '_' && forall c :: c in field ==> c >= '_'
    ensures KindOfField(field).Secret?
  {
    LowerStays(field);
    assert field[0..] == field;
    if IsServerIdentifier(field) { IdentifierLengths(field); }
  }

  lemma SourceIsSecret()
    ensures KindOfField("source").Secret?
  {
    ShortFieldIsSecret("source");
  }

  // ---------- words ----------

  /** No '@' and no digit: the characters of the words below. */
  predicate IsPlain(c: char) { c > '@' || c < '0' || c == ':' }

  lemma PlainIsWordy(s: string)
    requires forall c :: c in s ==> IsPlain(c)
    ensures Wordy(s)
  {
    forall i | 0 <= i < |s| ensures s[i] != '@' && !IsDigit(s[i]) { assert s[i] in s && IsPlain(s[i]); }
  }

  function Versioned(name: string, digit: char): string { name + [digit] }

  lemma VersionedIsWordy(name: string, digit: char)
    requires IsDigit(digit) && forall c :: c in name ==> IsPlain(c)
    ensures Wordy(Versioned(name, digit))
  {
    PlainIsWordy(name);
    assert forall i :: 0 <= i < |name| ==> Versioned(name, digit)[i] == name[i] && IsPlain(name[i]);
  }

  function EventType(e: E.Event): string {
    match e
    case Transition(_, _) => "StateTransitionLogged"
    case Telemetry(_) => "TelemetryIngested"
    case IngestionCompensated(_) => "IngestionCompensated"
    case RecordLogged(_) => "AuditRecordLogged"
    case Processed(_, _) => "TransactionProcessed"
    case TransactionCompensated(_, _, _) => "TransactionCompensated"
    case PaymentIngested(_) => "PaymentTransactionIngested"
    case PaymentScored(_, _, _, _) => "PaymentRiskScored"
    case PaymentCompensated(_) => "PaymentCompensated"
  }

  /** Events of one class have one number, and only they. */
  function EventClass(e: E.Event): nat {
    match e
    case Transition(_, _) => 0 case Telemetry(_) => 1 case IngestionCompensated(_) => 2 case RecordLogged(_) => 3
    case Processed(_, _) => 4 case TransactionCompensated(_, _, _) => 5 case PaymentIngested(_) => 6
    case PaymentScored(_, _, _, _) => 7 case PaymentCompensated(_) => 8
  }

  /** The event type tells the class of an event. */
  lemma TypesDiffer(e: E.Event, f: E.Event)
    ensures EventType(e) == EventType(f) <==> EventClass(e) == EventClass(f)
  {
    var a, b := EventType(e), EventType(f);
    assert a == b ==> |a| == |b| && a[0] == b[0];
  }

  /** A topic; one of the payments without `payments.` and its version. */
  function TopicName(e: E.Event): string {
    match e
    case Transition(_, _) => "state.transition.logged"
    case Telemetry(_) => "telemetry.ingested"
    case IngestionCompensated(_) => "ingestion.compensated"
    case RecordLogged(_) => "audit.record.logged"
    case Processed(_, _) => "transaction.processed"
    case TransactionCompensated(_, _, _) => "transaction.compensated"
    case PaymentIngested(_) => "transaction.ingested"
    case PaymentScored(_, _, _, _) => "risk.scored"
    case PaymentCompensated(_) => "compensated"
  }

  predicate IsOfPayment(e: E.Event) { e.PaymentIngested? || e.PaymentScored? || e.PaymentCompensated? }

  function Topic(e: E.Event): string {
    if IsOfPayment(e) then Versioned("payments." + TopicName(e) + ".v", '2') else TopicName(e)
  }

  function ModelVersion(): string { Versioned("baseline-v", '1') }

  const EVENT_TYPES := ["StateTransitionLogged", "TelemetryIngested", "IngestionCompensated", "AuditRecordLogged",
                        "TransactionProcessed", "TransactionCompensated", "PaymentTransactionIngested",
                        "PaymentRiskScored", "PaymentCompensated"]

  const TOPIC_NAMES := ["state.transition.logged", "telemetry.ingested", "ingestion.compensated",
                        "audit.record.logged", "transaction.processed", "transaction.compensated",
                        "transaction.ingested", "risk.scored", "compensated"]

  lemma TypeIsListed(e: E.Event)
    ensures EventType(e) in EVENT_TYPES
  {}

  lemma TopicIsListed(e: E.Event)
    ensures TopicName(e) in TOPIC_NAMES
  {}

  lemma TypeLetters(s: string, c: char)
    requires s in EVENT_TYPES && c in s
    ensures IsPlain(c)
  {}

  lemma TopicLetters(s: string, c: char)
    requires s in TOPIC_NAMES && c in s
    ensures IsPlain(c)
  {}

  lemma TypeIsWordy(e: E.Event)
    ensures Wordy(EventType(e))
  {
    TypeIsListed(e);
    forall c | c in EventType(e) ensures IsPlain(c) { TypeLetters(EventType(e), c); }
    PlainIsWordy(EventType(e));
  }

  lemma TopicIsWordy(e: E.Event)
    ensures Wordy(Topic(e))
  {
    TopicIsListed(e);
    forall c | c in TopicName(e) ensures IsPlain(c) { TopicLetters(TopicName(e), c); }
    PlainIsWordy(TopicName(e));
    assert forall c :: c in "payments." || c in ".v" ==> IsPlain(c);
    VersionedIsWordy("payments." + TopicName(e) + ".v", '2');
  }

  /** No two classes share a topic. */
  lemma TopicsDiffer(e: E.Event, f: E.Event)
    ensures Topic(e) == Topic(f) <==> EventClass(e) == EventClass(f)
  {
    var a, b := Topic(e), Topic(f);
    assert a == b ==> |a| == |b| && a[0] == b[0] && a[9] == b[9];
  }

  lemma ModelVersionIsWordy()
    ensures Wordy(ModelVersion())
  {
    VersionedIsWordy("baseline-v", '1');
  }

  function PhaseName(p: E.Phase): string {
    match p
    case Initialized => "INITIALIZED" case Processing => "PROCESSING"
    case Completed => "COMPLETED" case Compensated => "COMPENSATED"
  }

  lemma PhasesDiffer(p: E.Phase, q: E.Phase)
    ensures PhaseName(p) == PhaseName(q) <==> p == q
  {
    var a, b := PhaseName(p), PhaseName(q);
    assert a == b ==> |a| == |b|;
  }

  lemma PhaseLetters(p: E.Phase, c: char)
    requires c in PhaseName(p)
    ensures IsPlain(c)
  {}

  lemma PhaseIsWordy(p: E.Phase)
    ensures Wordy(PhaseName(p))
  {
    forall c | c in PhaseName(p) ensures IsPlain(c) { PhaseLetters(p, c); }
    PlainIsWordy(PhaseName(p));
  }

  const INGESTION_REASONS := ["Received document for ingestion", "Vector store write failed",
                              "Audit persistence failed", "Ingestion completed successfully",
                              "Unhandled ingestion failure"]

  const QUESTION_REASONS := ["Question received for retrieval", "Audit persistence failed",
                             "Retrieval returned a safe fallback", "Retrieval and inference completed"]

  const PAYMENT_REASONS := ["Payment transaction received", "Payment ingestion failed", "Risk scoring failed closed",
                            "Decision: review", "Decision: allow"]

  const CODES := ["STORE_ADD_FAILED", "AUDIT_WRITE_FAILED", "UNHANDLED_FAILURE", S.FAIL_SAFE,
                  "DOWNSTREAM_TIMEOUT_FAIL_CLOSED"]

  const OTHER_WORDS := ["processed", "compensated", "review", "allow", "ingest", "ask", "audit sink unavailable"]

  lemma IngestionReasonLetters(s: string, c: char)
    requires s in INGESTION_REASONS && c in s
    ensures IsPlain(c)
  {}

  lemma QuestionReasonLetters(s: string, c: char)
    requires s in QUESTION_REASONS && c in s
    ensures IsPlain(c)
  {}

  lemma PaymentReasonLetters(s: string, c: char)
    requires s in PAYMENT_REASONS && c in s
    ensures IsPlain(c)
  {}

  lemma CodeLetters(s: string, c: char)
    requires s in CODES && c in s
    ensures IsPlain(c)
  {}

  lemma OtherLetters(s: string, c: char)
    requires s in OTHER_WORDS && c in s
    ensures IsPlain(c)
  {}

  predicate IsReason(s: string) { s in INGESTION_REASONS || s in QUESTION_REASONS || s in PAYMENT_REASONS }

  lemma ReasonLetters(s: string, c: char)
    requires IsReason(s) && c in s
    ensures IsPlain(c)
  {
    if s in INGESTION_REASONS {
      IngestionReasonLetters(s, c);
    } else if s in QUESTION_REASONS {
      QuestionReasonLetters(s, c);
    } else {
      PaymentReasonLetters(s, c);
    }
  }

  lemma WordIsWordy(s: string)
    requires IsReason(s) || s in CODES || s in OTHER_WORDS
    ensures Wordy(s)
  {
    forall c | c in s ensures IsPlain(c) {
      if IsReason(s) { ReasonLetters(s, c); } else if s in CODES { CodeLetters(s, c); } else { OtherLetters(s, c); }
    }
    PlainIsWordy(s);
  }
}
