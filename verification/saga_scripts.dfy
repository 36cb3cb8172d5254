/**
 What the request handlers (app/main.py, lines 173-308) do to the outside, as
 lists of steps, and what every run of them answers, for every combination of
 failing calls.
 */
module SagaScripts {
  import opened Collections
  import opened MemoryStore
  import opened Effects
  import Chunking

  /** An exception that no handler turns into an HTTP answer leaves as `Escaped`. */
  datatype Answer = Http(status: int) | Escaped

  const FAIL_SAFE := "DOWNSTREAM_FAILURE_FAIL_SAFE"

  function StartEffects(): seq<Effect> { Moving(START, 0) }

  /** COMPENSATED, the compensation record, and the compensating event. */
  function Compensating(boundary: string, reason: string, notice: Event, t: nat, c: nat): seq<Effect> {
    Moving(End(false), t) + [Audit(CompensationRecord(boundary, reason), CompensationAudit(c))] + [Announce(notice)]
  }

  /** The request record, the terminal transition, and its announcement. */
  function Completing(completed: bool, kind: string): seq<Effect> {
    [Audit(RequestRecord(kind), RequestAudit)] + Moving(End(completed), 1) + [Announce(RecordLogged(kind))]
  }

  lemma CompensatingFacts(boundary: string, reason: string, notice: Event, t: nat, c: nat)
    requires !IsTransition(notice)
    ensures Events(Compensating(boundary, reason, notice, t, c)) == [End(false), notice]
    ensures Paired(Compensating(boundary, reason, notice, t, c))
  {
    var note := Audit(CompensationRecord(boundary, reason), CompensationAudit(c));
    MovingFacts(End(false), t);
    EventsOfConcat(Moving(End(false), t) + [note], [Announce(notice)]);
    EventsOfConcat(Moving(End(false), t), [note]);
    EventsOfOne(note);
    EventsOfOne(Announce(notice));
    PairedOne(note);
    PairedOne(Announce(notice));
    PairedConcat(Moving(End(false), t), [note]);
    PairedConcat(Moving(End(false), t) + [note], [Announce(notice)]);
  }

  lemma CompletingFacts(completed: bool, kind: string)
    ensures Events(Completing(completed, kind)) == [End(completed), RecordLogged(kind)]
    ensures Paired(Completing(completed, kind))
  {
    var note, told := Audit(RequestRecord(kind), RequestAudit), Announce(RecordLogged(kind));
    MovingFacts(End(completed), 1);
    EventsOfConcat([note] + Moving(End(completed), 1), [told]);
    EventsOfConcat([note], Moving(End(completed), 1));
    EventsOfOne(note);
    EventsOfOne(told);
    PairedOne(note);
    PairedOne(told);
    PairedConcat([note], Moving(End(completed), 1));
    PairedConcat([note] + Moving(End(completed), 1), [told]);
  }

  // ---------- ingestion ----------

  datatype Ingestion = Ingested | StoreFailed | AuditFailed | Unhandled

  function IngestionOutcome(faults: Faults): Ingestion {
    if faults(Splitting) then Unhandled
    else if faults(StoreAdd) then StoreFailed
    else if faults(RequestAudit) then AuditFailed
    else Ingested
  }

  function IngestionStatus(o: Ingestion): int {
    match o case Ingested => 200 case StoreFailed => 502 case AuditFailed => 503 case Unhandled => 500
  }

  /** The record of a failed rollback. */
  function RollbackNote(faults: Faults): seq<Effect> {
    if faults(StoreRemove) then [Audit(CompensationRecord("retrieval_store", "ROLLBACK_FAILED"), CompensationAudit(0))]
    else []
  }

  /** From `store.add` to the end of the `try` block. */
  function EndingEffects(o: Ingestion, faults: Faults): seq<Effect> {
    match o
    case Ingested => Completing(true, "ingest")
    case StoreFailed =>
      Compensating("retrieval_store", "STORE_ADD_FAILED", IngestionCompensated("STORE_ADD_FAILED"), 1, 1)
    case AuditFailed =>
      RollbackNote(faults) +
      Compensating("audit_sink", "AUDIT_WRITE_FAILED", IngestionCompensated("AUDIT_WRITE_FAILED"), 1, 1)
    case Unhandled => []
  }

  /** The `try` block of `ingest`. */
  function TryEffects(faults: Faults, chunks: nat): seq<Effect> {
    if faults(Splitting) then []
    else [Announce(Telemetry(chunks))] + EndingEffects(IngestionOutcome(faults), faults)
  }

  /** Its handler of plain exceptions. */
  function HandlerEffects(): seq<Effect> {
    Compensating("ingestion", "UNHANDLED_FAILURE", IngestionCompensated("UNHANDLED_FAILURE"), 2, 2)
  }

  /** The first transition and the `try` block. */
  function BeforeHandler(faults: Faults, chunks: nat): Run {
    Perform(StartEffects() + TryEffects(faults, chunks), faults, 0)
  }

  /** Whether the handler runs: not if the first transition raised. */
  predicate Handled(faults: Faults, chunks: nat) {
    var r := BeforeHandler(faults, chunks);
    r.published != [] && (r.raised || faults(Splitting))
  }

  /** Everything an ingestion publishes and audits, whatever raises. */
  function IngestionRun(faults: Faults, chunks: nat): Run {
    var r := BeforeHandler(faults, chunks);
    if Handled(faults, chunks) then Join(r, Perform(HandlerEffects(), faults, r.publishes)) else r
  }

  function IngestionAnswer(faults: Faults, chunks: nat): Answer {
    if IngestionRun(faults, chunks).raised then Escaped
    else if Handled(faults, chunks) then Http(500)
    else Http(IngestionStatus(IngestionOutcome(faults)))
  }

  /** The first transition or the telemetry event raised, or there are no chunks. */
  predicate StopsBeforeTheStore(faults: Faults, chunks: nat) {
    faults(Publish(0, START)) || faults(Splitting) || faults(Publish(1, Telemetry(chunks)))
  }

  /** The run of the first transition and more steps begins with that transition. */
  lemma StartOf(fx: seq<Effect>, faults: Faults)
    ensures var r := Perform(StartEffects() + fx, faults, 0);
      if faults(Publish(0, START)) then r.published == [] && r.raised
      else r.published != [] && r.published[0] == START && Perform(StartEffects(), faults, 0).publishes == 1
  {
    assert StartEffects() + fx == Moving(START, 0) + fx;
    PairPerformed(StartEffects() + fx, faults, 0);
    PairPerformed(StartEffects(), faults, 0);
    assert StartEffects()[2..] == [];
  }

  /** The documents an ingestion leaves behind. */
  function DocumentsAfter(o: Ingestion, rollbackFails: bool, docs: seq<Doc>, limit: nat, chunks: seq<Doc>): seq<Doc> {
    match o
    case Ingested => WriteAll(docs, limit, chunks)
    case AuditFailed =>
      if rollbackFails then WriteAll(docs, limit, chunks) else RemoveAll(WriteAll(docs, limit, chunks), IdsOf(chunks))
    case StoreFailed => docs
    case Unhandled => docs
  }

  /** The events of the ending. */
  function EndingEvents(o: Ingestion): seq<Event> {
    match o
    case Ingested => [End(true), RecordLogged("ingest")]
    case StoreFailed => [End(false), IngestionCompensated("STORE_ADD_FAILED")]
    case AuditFailed => [End(false), IngestionCompensated("AUDIT_WRITE_FAILED")]
    case Unhandled => [End(false), IngestionCompensated("UNHANDLED_FAILURE")]
  }

  /** What an ingestion publishes when no publication raises. */
  function IngestionEvents(o: Ingestion, chunks: nat): seq<Event> {
    match o
    case Ingested => [START, Telemetry(chunks), End(true), RecordLogged("ingest")]
    case StoreFailed => [START, Telemetry(chunks), End(false), IngestionCompensated("STORE_ADD_FAILED")]
    case AuditFailed => [START, Telemetry(chunks), End(false), IngestionCompensated("AUDIT_WRITE_FAILED")]
    case Unhandled => [START, End(false), IngestionCompensated("UNHANDLED_FAILURE")]
  }

  predicate IsStart(e: Event) { e == START }

  predicate IsRollbackNotice(e: Event) { e.IngestionCompensated? }

  /** The events of the steps before the handler. */
  function TryEvents(o: Ingestion, chunks: nat): seq<Event> {
    if o.Unhandled? then [START] else IngestionEvents(o, chunks)
  }

  lemma EndingFacts(o: Ingestion, faults: Faults)
    requires !o.Unhandled?
    ensures Events(EndingEffects(o, faults)) == EndingEvents(o)
    ensures Paired(EndingEffects(o, faults))
  {
    match o
    case Ingested => CompletingFacts(true, "ingest");
    case StoreFailed =>
      CompensatingFacts("retrieval_store", "STORE_ADD_FAILED", IngestionCompensated("STORE_ADD_FAILED"), 1, 1);
    case AuditFailed =>
      var notice := IngestionCompensated("AUDIT_WRITE_FAILED");
      CompensatingFacts("audit_sink", "AUDIT_WRITE_FAILED", notice, 1, 1);
      EventsOfConcat(RollbackNote(faults), Compensating("audit_sink", "AUDIT_WRITE_FAILED", notice, 1, 1));
      if faults(StoreRemove) { EventsOfOne(RollbackNote(faults)[0]); PairedOne(RollbackNote(faults)[0]); }
      PairedConcat(RollbackNote(faults), Compensating("audit_sink", "AUDIT_WRITE_FAILED", notice, 1, 1));
  }

  lemma TryFacts(faults: Faults, chunks: nat)
    ensures Events(TryEffects(faults, chunks))
         == if faults(Splitting) then [] else [Telemetry(chunks)] + EndingEvents(IngestionOutcome(faults))
    ensures Paired(TryEffects(faults, chunks))
  {
    var o, told := IngestionOutcome(faults), Announce(Telemetry(chunks));
    if !o.Unhandled? {
      EndingFacts(o, faults);
      EventsOfConcat([told], EndingEffects(o, faults));
      EventsOfOne(told);
      PairedOne(told);
      PairedConcat([told], EndingEffects(o, faults));
    }
  }

  lemma ScriptParts(o: Ingestion, chunks: nat)
    ensures TryEvents(o, chunks) == [START] + (if o.Unhandled? then [] else [Telemetry(chunks)] + EndingEvents(o))
    ensures IngestionEvents(o, chunks) == TryEvents(o, chunks) + (if o.Unhandled? then EndingEvents(o) else [])
  {}

  lemma BeforeHandlerFacts(faults: Faults, chunks: nat)
    ensures Events(StartEffects() + TryEffects(faults, chunks)) == TryEvents(IngestionOutcome(faults), chunks)
    ensures Paired(StartEffects() + TryEffects(faults, chunks))
  {
    MovingFacts(START, 0);
    TryFacts(faults, chunks);
    EventsOfConcat(StartEffects(), TryEffects(faults, chunks));
    PairedConcat(StartEffects(), TryEffects(faults, chunks));
    ScriptParts(IngestionOutcome(faults), chunks);
  }

  lemma HandlerFacts()
    ensures Events(HandlerEffects()) == [End(false), IngestionCompensated("UNHANDLED_FAILURE")]
    ensures Paired(HandlerEffects())
  {
    CompensatingFacts("ingestion", "UNHANDLED_FAILURE", IngestionCompensated("UNHANDLED_FAILURE"), 2, 2);
  }

  /** When no publication raises, an ingestion publishes its script, and the answer
      is the status of its outcome. */
  lemma IngestionFollowsItsScript(faults: Faults, chunks: nat)
    requires Quiet(IngestionEvents(IngestionOutcome(faults), chunks), faults, 0)
    ensures var r, o := IngestionRun(faults, chunks), IngestionOutcome(faults);
      && !r.raised && r.published == IngestionEvents(o, chunks)
      && IngestionAnswer(faults, chunks) == Http(IngestionStatus(o))
  {
    var o := IngestionOutcome(faults);
    BeforeHandlerFacts(faults, chunks);
    ScriptParts(o, chunks);
    QuietParts(TryEvents(o, chunks), if o.Unhandled? then EndingEvents(o) else [], faults, 0);
    QuietRunsThrough(StartEffects() + TryEffects(faults, chunks), faults, 0);
    if o.Unhandled? {
      HandlerFacts();
      QuietRunsThrough(HandlerEffects(), faults, 1);
    }
  }

  /** The script starts once and ends once, in COMPLETED exactly when the answer is
      200; otherwise exactly one `IngestionCompensated` is published. */
  lemma IngestionEndsOnce(o: Ingestion, chunks: nat)
    ensures Ends(IngestionEvents(o, chunks)) == [End(IngestionStatus(o) == 200)]
    ensures |Filter(IsRollbackNotice, IngestionEvents(o, chunks))| == if IngestionStatus(o) == 200 then 0 else 1
    ensures Filter(IsStart, IngestionEvents(o, chunks)) == [START]
  {
    var events := IngestionEvents(o, chunks);
    FilterOnlyAt(IsTerminal, events, |events| - 2);
    FilterOnlyAt(IsStart, events, 0);
    if o.Ingested? {
      FilterNothing(IsRollbackNotice, events);
    } else {
      FilterOnlyAt(IsRollbackNotice, events, |events| - 1);
    }
  }

  /** The terminal transitions of an ingestion, whatever raises: the one of the `try`
      block, if it was published, and the handler's, if it ran and was published. */
  function IngestionEnds(faults: Faults, chunks: nat): seq<Event> {
    var r := BeforeHandler(faults, chunks);
    (if |r.published| >= 3 then [End(IngestionOutcome(faults).Ingested?)] else [])
    + (if Handled(faults, chunks) && !faults(Publish(r.publishes, End(false))) then [End(false)] else [])
  }

  lemma EndsOfTryPrefix(o: Ingestion, chunks: nat, k: nat)
    requires k <= |TryEvents(o, chunks)|
    ensures Ends(TryEvents(o, chunks)[..k]) == if k >= 3 then [End(o.Ingested?)] else []
  {
    if o.Unhandled? {
      FilterNothing(IsTerminal, TryEvents(o, chunks)[..k]);
    } else {
      EndsOfPrefix(TryEvents(o, chunks), 2, k);
    }
  }

  lemma TryEndsAre(faults: Faults, chunks: nat)
    ensures var r, o := BeforeHandler(faults, chunks), IngestionOutcome(faults);
      && r.published <= TryEvents(o, chunks)
      && Ends(r.published) == if |r.published| >= 3 then [End(o.Ingested?)] else []
  {
    var r, o := BeforeHandler(faults, chunks), IngestionOutcome(faults);
    BeforeHandlerFacts(faults, chunks);
    PublishedIsAPrefix(StartEffects() + TryEffects(faults, chunks), faults, 0);
    assert r.published == TryEvents(o, chunks)[..|r.published|];
    EndsOfTryPrefix(o, chunks, |r.published|);
  }

  lemma HandlerEndsAre(faults: Faults, n: nat)
    ensures Ends(Perform(HandlerEffects(), faults, n).published)
         == if faults(Publish(n, End(false))) then [] else [End(false)]
  {
    var h := Perform(HandlerEffects(), faults, n);
    HandlerFacts();
    PublishedIsAPrefix(HandlerEffects(), faults, n);
    MovingPublishes(HandlerEffects(), End(false), 2, faults, n);
    EndsOfPrefix(Events(HandlerEffects()), 0, |h.published|);
    assert h.published == Events(HandlerEffects())[..|h.published|];
  }

  lemma IngestionEndsAre(faults: Faults, chunks: nat)
    ensures Ends(IngestionRun(faults, chunks).published) == IngestionEnds(faults, chunks)
  {
    var r := BeforeHandler(faults, chunks);
    TryEndsAre(faults, chunks);
    if Handled(faults, chunks) {
      HandlerEndsAre(faults, r.publishes);
      FilterConcat(IsTerminal, r.published, Perform(HandlerEffects(), faults, r.publishes).published);
    }
  }

  /** Exactly how many terminal transitions an ingestion publishes: two if and only
      if the `try` block got as far as its own and the next publication raised. */
  lemma IngestionEndsIff(faults: Faults, chunks: nat)
    ensures var r, ends := BeforeHandler(faults, chunks), Ends(IngestionRun(faults, chunks).published);
      && |ends| <= 2
      && (|ends| == 2 <==> |r.published| == 3 && !faults(Publish(r.publishes, End(false))))
      && (|ends| == 0 <==> r.published == [] || (|r.published| <= 2 && faults(Publish(r.publishes, End(false)))))
  {
    IngestionEndsAre(faults, chunks);
    BeforeHandlerFacts(faults, chunks);
    PublishedIsAPrefix(StartEffects() + TryEffects(faults, chunks), faults, 0);
  }

  /** The transitions of an ingestion that were audited but, raising, not published. */
  function IngestionOrphans(faults: Faults, chunks: nat): seq<Record> {
    BeforeHandlerFacts(faults, chunks);
    HandlerFacts();
    Orphan(StartEffects() + TryEffects(faults, chunks), faults, 0) +
    (if Handled(faults, chunks) then Orphan(HandlerEffects(), faults, BeforeHandler(faults, chunks).publishes) else [])
  }

  /** Whatever raises, the audited transitions of an ingestion are a subsequence of
      the published ones if no audited transition's own publication raised; without
      failing audit writes, only then. */
  lemma IngestionTrail(faults: Faults, chunks: nat)
    ensures IngestionOrphans(faults, chunks) == [] ==> TrailFollows(IngestionRun(faults, chunks))
    ensures NoTransitionAuditFails(faults) && TrailFollows(IngestionRun(faults, chunks)) ==>
      IngestionOrphans(faults, chunks) == []
  {
    BeforeHandlerFacts(faults, chunks);
    HandlerFacts();
    var first, handler := StartEffects() + TryEffects(faults, chunks), HandlerEffects();
    var r := BeforeHandler(faults, chunks);
    TrailOfOne(first, faults, 0);
    if Handled(faults, chunks) {
      TrailOfTwo(first, handler, faults, 0);
    }
  }

  lemma QuietTry(faults: Faults, chunks: nat)
    requires Quiet(TryEvents(IngestionOutcome(faults), chunks), faults, 0)
    ensures var r := BeforeHandler(faults, chunks);
      !r.raised && r.published != [] && r.publishes == |TryEvents(IngestionOutcome(faults), chunks)|
    ensures Paired(StartEffects() + TryEffects(faults, chunks))
    ensures Orphan(StartEffects() + TryEffects(faults, chunks), faults, 0) == []
  {
    BeforeHandlerFacts(faults, chunks);
    ScriptParts(IngestionOutcome(faults), chunks);
    QuietRunsThrough(StartEffects() + TryEffects(faults, chunks), faults, 0);
    QuietHasNoOrphan(StartEffects() + TryEffects(faults, chunks), faults, 0);
  }

  lemma QuietHandler(faults: Faults, n: nat)
    requires Quiet(EndingEvents(Unhandled), faults, n)
    ensures Paired(HandlerEffects()) && Orphan(HandlerEffects(), faults, n) == []
  {
    HandlerFacts();
    QuietHasNoOrphan(HandlerEffects(), faults, n);
  }

  lemma QuietIngestionHasNoOrphans(faults: Faults, chunks: nat)
    requires Quiet(IngestionEvents(IngestionOutcome(faults), chunks), faults, 0)
    ensures IngestionOrphans(faults, chunks) == []
  {
    var o := IngestionOutcome(faults);
    ScriptParts(o, chunks);
    QuietParts(TryEvents(o, chunks), if o.Unhandled? then EndingEvents(o) else [], faults, 0);
    QuietTry(faults, chunks);
    if o.Unhandled? { QuietHandler(faults, |TryEvents(o, chunks)|); }
  }

  // ---------- questions ----------

  datatype Output = NoEvidence | InferenceDisabled | InferenceUnavailable | Generated(text: string)

  /** The boundary that failed, if any. `None` as a result of retrieval or
      inference is an exception; inference runs only on evidence. */
  function FailedBoundary(retrieval: Option<seq<string>>, llm: bool, inference: Option<string>): Option<string> {
    if retrieval.None? then Some("retrieval_store")
    else if retrieval.value != [] && llm && inference.None? then Some("llm_inference")
    else None
  }

  function AskOutput(retrieval: Option<seq<string>>, llm: bool, inference: Option<string>): Output {
    if retrieval.None? || retrieval.value == [] then NoEvidence
    else if !llm then InferenceDisabled
    else if inference.None? then InferenceUnavailable
    else Generated(inference.value)
  }

  /** One compensation per failed boundary, caused by the processed event. */
  function AskCompensations(id: nat, failed: Option<string>): seq<Event> {
    match failed
    case None => []
    case Some(b) => [TransactionCompensated(Some(id), FAIL_SAFE, b)]
  }

  function Announcing(events: seq<Event>): seq<Effect> {
    if events == [] then [] else Announcing(events[..|events| - 1]) + [Announce(events[|events| - 1])]
  }

  lemma AnnouncingNext(events: seq<Event>, e: Event)
    ensures Announcing(events + [e]) == Announcing(events) + [Announce(e)]
  {
    assert (events + [e])[..|events|] == events;
  }

  function NoteOf(comp: Event, n: nat): Effect
    requires comp.TransactionCompensated?
  {
    Audit(CompensationRecord(comp.boundary, comp.reason), CompensationAudit(n))
  }

  /** The records of a list of compensations, written one by one. */
  function NotesOf(comps: seq<Event>): seq<Effect>
    requires forall i :: 0 <= i < |comps| ==> comps[i].TransactionCompensated?
  {
    if comps == [] then [] else
      var n := |comps| - 1;
      NotesOf(comps[..n]) + [NoteOf(comps[n], n)]
  }

  lemma NotesNext(comps: seq<Event>, i: nat)
    requires i < |comps| && forall j :: 0 <= j < |comps| ==> comps[j].TransactionCompensated?
    ensures NotesOf(comps[..i + 1]) == NotesOf(comps[..i]) + [NoteOf(comps[i], i)]
  {
    assert comps[..i + 1][..i] == comps[..i];
  }

  /** `ask_with_outcome` */
  function ServiceEffects(id: nat, failed: Option<string>): seq<Effect> {
    [Announce(Processed(id, failed.Some?))] + Announcing(AskCompensations(id, failed))
  }

  /** The end of `ask`. */
  function AnswerEffects(failed: Option<string>, faults: Faults): seq<Effect> {
    if faults(RequestAudit) then
      Compensating("audit_sink", "AUDIT_WRITE_FAILED", TransactionCompensated(None, "AUDIT_WRITE_FAILED", ""), 1, 2)
    else Completing(failed.None?, "ask")
  }

  function AskEffects(id: nat, failed: Option<string>, faults: Faults): seq<Effect> {
    ServiceEffects(id, failed) + NotesOf(AskCompensations(id, failed)) + AnswerEffects(failed, faults)
  }

  /** Everything a question publishes and audits; without its model client it stops
      after the first transition. */
  function AskRun(id: nat, failed: Option<string>, modelWanted: bool, faults: Faults): Run {
    if modelWanted && faults(ModelSetup) then Perform(StartEffects(), faults, 0).(raised := true)
    else Perform(StartEffects() + AskEffects(id, failed, faults), faults, 0)
  }

  function AskAnswer(id: nat, failed: Option<string>, modelWanted: bool, faults: Faults): Answer {
    if AskRun(id, failed, modelWanted, faults).raised then Escaped
    else Http(if faults(RequestAudit) then 503 else 200)
  }

  function AnswerEvents(failed: Option<string>, auditFails: bool): seq<Event> {
    if auditFails then [End(false), TransactionCompensated(None, "AUDIT_WRITE_FAILED", "")]
    else [End(failed.None?), RecordLogged("ask")]
  }

  /** What a question publishes when no publication raises. */
  function AskEvents(id: nat, failed: Option<string>, auditFails: bool): seq<Event> {
    [START, Processed(id, failed.Some?)] + AskCompensations(id, failed) + AnswerEvents(failed, auditFails)
  }

  /** The place of the terminal transition among them. */
  function AskEndIndex(failed: Option<string>): nat { if failed.Some? then 3 else 2 }

  predicate IsProcessed(e: Event) { e.Processed? }

  predicate IsFailSafeNotice(e: Event) { e.TransactionCompensated? && e.reason == FAIL_SAFE }

  lemma ServiceFacts(id: nat, failed: Option<string>)
    ensures Events(ServiceEffects(id, failed)) == [Processed(id, failed.Some?)] + AskCompensations(id, failed)
    ensures Events(NotesOf(AskCompensations(id, failed))) == []
    ensures Paired(ServiceEffects(id, failed)) && Paired(NotesOf(AskCompensations(id, failed)))
  {
    var comps, first := AskCompensations(id, failed), Announce(Processed(id, failed.Some?));
    EventsOfConcat([first], Announcing(comps));
    EventsOfOne(first);
    PairedOne(first);
    if failed.Some? {
      var note := NoteOf(comps[0], 0);
      assert comps[..0] == [] && [] + [Announce(comps[0])] == [Announce(comps[0])] && [] + [note] == [note];
      assert Announcing(comps) == [Announce(comps[0])] && NotesOf(comps) == [note];
      EventsOfOne(Announce(comps[0]));
      EventsOfOne(note);
      PairedOne(Announce(comps[0]));
      PairedOne(note);
    }
    PairedConcat([first], Announcing(comps));
  }

  lemma AnswerFacts(failed: Option<string>, faults: Faults)
    ensures Events(AnswerEffects(failed, faults)) == AnswerEvents(failed, faults(RequestAudit))
    ensures Paired(AnswerEffects(failed, faults))
  {
    CompensatingFacts("audit_sink", "AUDIT_WRITE_FAILED", TransactionCompensated(None, "AUDIT_WRITE_FAILED", ""), 1, 2);
    CompletingFacts(failed.None?, "ask");
  }

  lemma AskBodyFacts(id: nat, failed: Option<string>, faults: Faults)
    ensures Events(AskEffects(id, failed, faults))
         == [Processed(id, failed.Some?)] + AskCompensations(id, failed) + AnswerEvents(failed, faults(RequestAudit))
    ensures Paired(AskEffects(id, failed, faults))
  {
    var service, notes := ServiceEffects(id, failed), NotesOf(AskCompensations(id, failed));
    var answer := AnswerEffects(failed, faults);
    ServiceFacts(id, failed);
    AnswerFacts(failed, faults);
    EventsOfConcat(service + notes, answer);
    EventsOfConcat(service, notes);
    PairedConcat(service, notes);
    PairedConcat(service + notes, answer);
    assert Events(service) + [] == Events(service);
  }

  lemma AskFacts(id: nat, failed: Option<string>, faults: Faults)
    ensures Events(StartEffects() + AskEffects(id, failed, faults)) == AskEvents(id, failed, faults(RequestAudit))
    ensures Paired(StartEffects() + AskEffects(id, failed, faults))
  {
    MovingFacts(START, 0);
    AskBodyFacts(id, failed, faults);
    EventsOfConcat(StartEffects(), AskEffects(id, failed, faults));
    PairedConcat(StartEffects(), AskEffects(id, failed, faults));
    Regroup(START, Processed(id, failed.Some?), AskCompensations(id, failed),
            AnswerEvents(failed, faults(RequestAudit)));
  }

  lemma AskScriptEnds(id: nat, failed: Option<string>, auditFails: bool)
    ensures var events, i := AskEvents(id, failed, auditFails), AskEndIndex(failed);
      && |events| == i + 2 && events[0] == START && events[i] == End(failed.None? && !auditFails)
      && forall j :: 0 <= j < |events| ==> (IsTerminal(events[j]) <==> j == i)
  {}

  lemma AskPrefix(id: nat, failed: Option<string>, modelWanted: bool, faults: Faults)
    ensures var r, script := AskRun(id, failed, modelWanted, faults), AskEvents(id, failed, faults(RequestAudit));
      r.published <= script && (r.raised <==> |r.published| < |script|)
  {
    AskScriptEnds(id, failed, faults(RequestAudit));
    if modelWanted && faults(ModelSetup) {
      MovingFacts(START, 0);
      PublishedIsAPrefix(StartEffects(), faults, 0);
    } else {
      AskFacts(id, failed, faults);
      PublishedIsAPrefix(StartEffects() + AskEffects(id, failed, faults), faults, 0);
    }
  }

  /** Of the script of a question, whatever raises, a prefix is published; its
      terminal transition is the only one. */
  lemma AskEndsIff(id: nat, failed: Option<string>, modelWanted: bool, faults: Faults)
    ensures var r, script := AskRun(id, failed, modelWanted, faults), AskEvents(id, failed, faults(RequestAudit));
      && r.published <= script
      && (r.raised <==> |r.published| < |script|)
      && Ends(r.published) ==
         (if |r.published| > AskEndIndex(failed) then [End(failed.None? && !faults(RequestAudit))] else [])
  {
    var r, script := AskRun(id, failed, modelWanted, faults), AskEvents(id, failed, faults(RequestAudit));
    AskScriptEnds(id, failed, faults(RequestAudit));
    AskPrefix(id, failed, modelWanted, faults);
    assert r.published == script[..|r.published|];
    EndsOfPrefix(script, AskEndIndex(failed), |r.published|);
  }

  /** The script starts once and ends once, in COMPLETED exactly when retrieval, the
      inference it needed and the audit write succeeded. */
  lemma AskEndsOnce(id: nat, retrieval: Option<seq<string>>, llm: bool, inference: Option<string>, auditFails: bool)
    ensures var failed := FailedBoundary(retrieval, llm, inference);
      var events := AskEvents(id, failed, auditFails);
      && Filter(IsStart, events) == [START]
      && Ends(events) == [End(retrieval.Some? && !auditFails && (retrieval.value == [] || !llm || inference.Some?))]
  {
    var failed := FailedBoundary(retrieval, llm, inference);
    var events := AskEvents(id, failed, auditFails);
    AskScriptEnds(id, failed, auditFails);
    FilterOnlyAt(IsStart, events, 0);
    FilterOnlyAt(IsTerminal, events, AskEndIndex(failed));
  }

  /** A failed boundary has one compensation, caused by the processed event. */
  lemma FailureIsCompensatedOnce(id: nat, retrieval: Option<seq<string>>, llm: bool, inference: Option<string>,
                                 auditFails: bool)
    ensures var events := AskEvents(id, FailedBoundary(retrieval, llm, inference), auditFails);
      Filter(IsFailSafeNotice, events)
      == if retrieval.None? then [TransactionCompensated(Some(id), FAIL_SAFE, "retrieval_store")]
         else if retrieval.value != [] && llm && inference.None? then
           [TransactionCompensated(Some(id), FAIL_SAFE, "llm_inference")]
         else []
    ensures var events := AskEvents(id, FailedBoundary(retrieval, llm, inference), auditFails);
      Filter(IsProcessed, events) == [Processed(id, |Filter(IsFailSafeNotice, events)| == 1)]
  {
    var failed := FailedBoundary(retrieval, llm, inference);
    var events := AskEvents(id, failed, auditFails);
    assert |"AUDIT_WRITE_FAILED"| != |FAIL_SAFE|;
    FilterOnlyAt(IsProcessed, events, 1);
    if failed.Some? { FilterOnlyAt(IsFailSafeNotice, events, 2); } else { FilterNothing(IsFailSafeNotice, events); }
  }

  lemma StuckQuestion(id: nat, failed: Option<string>, faults: Faults)
    requires faults(ModelSetup) && !faults(Publish(0, START))
    ensures AskRun(id, failed, true, faults).published == [START] && AskAnswer(id, failed, true, faults) == Escaped
    ensures Ends(AskRun(id, failed, true, faults).published) == []
    ensures Paired(StartEffects()) && Orphan(StartEffects(), faults, 0) == []
  {
    MovingFacts(START, 0);
    QuietRunsThrough(StartEffects(), faults, 0);
    QuietHasNoOrphan(StartEffects(), faults, 0);
    FilterNothing(IsTerminal, [START]);
  }

  /** A question leaves without a terminal transition when its model client cannot
      be set up, since that stands outside every handler. */
  lemma AskWithoutModelNeverEnds(id: nat, failed: Option<string>) returns (faults: Faults)
    ensures forall n, e :: !faults(Publish(n, e))
    ensures AskRun(id, failed, true, faults).published == [START] && AskAnswer(id, failed, true, faults) == Escaped
    ensures Ends(AskRun(id, failed, true, faults).published) == []
  {
    faults := c => c == ModelSetup;
    StuckQuestion(id, failed, faults);
  }

  /** The transitions of a question that were audited but, raising, not published. */
  function AskOrphans(id: nat, failed: Option<string>, modelWanted: bool, faults: Faults): seq<Record> {
    MovingFacts(START, 0);
    AskFacts(id, failed, faults);
    if modelWanted && faults(ModelSetup) then Orphan(StartEffects(), faults, 0)
    else Orphan(StartEffects() + AskEffects(id, failed, faults), faults, 0)
  }

  /** The same for the audited transitions of a question. */
  lemma AskTrail(id: nat, failed: Option<string>, modelWanted: bool, faults: Faults)
    ensures AskOrphans(id, failed, modelWanted, faults) == [] ==> TrailFollows(AskRun(id, failed, modelWanted, faults))
    ensures NoTransitionAuditFails(faults) && TrailFollows(AskRun(id, failed, modelWanted, faults)) ==>
      AskOrphans(id, failed, modelWanted, faults) == []
  {
    MovingFacts(START, 0);
    AskFacts(id, failed, faults);
    if modelWanted && faults(ModelSetup) {
      var r := Perform(StartEffects(), faults, 0);
      TrailOfOne(StartEffects(), faults, 0);
      SameTrail(r, r.(raised := true));
    } else {
      TrailOfOne(StartEffects() + AskEffects(id, failed, faults), faults, 0);
    }
  }

  lemma AnsweredQuestion(id: nat, failed: Option<string>, modelWanted: bool, faults: Faults)
    requires Quiet(AskEvents(id, failed, faults(RequestAudit)), faults, 0) && !(modelWanted && faults(ModelSetup))
    ensures var r, events := AskRun(id, failed, modelWanted, faults), AskEvents(id, failed, faults(RequestAudit));
      !r.raised && r.published == events && Ends(events) == [End(failed.None? && !faults(RequestAudit))]
    ensures AskOrphans(id, failed, modelWanted, faults) == []
  {
    var events := AskEvents(id, failed, faults(RequestAudit));
    AskFacts(id, failed, faults);
    QuietRunsThrough(StartEffects() + AskEffects(id, failed, faults), faults, 0);
    QuietHasNoOrphan(StartEffects() + AskEffects(id, failed, faults), faults, 0);
    AskScriptEnds(id, failed, faults(RequestAudit));
    FilterOnlyAt(IsTerminal, events, AskEndIndex(failed));
  }

  /** When no publication raises, a question publishes its script and is answered,
      unless its model client cannot be set up. */
  lemma QuietQuestion(id: nat, failed: Option<string>, modelWanted: bool, faults: Faults)
    requires Quiet(AskEvents(id, failed, faults(RequestAudit)), faults, 0)
    ensures var r, events := AskRun(id, failed, modelWanted, faults), AskEvents(id, failed, faults(RequestAudit));
      var stuck := modelWanted && faults(ModelSetup);
      && r.published == (if stuck then [START] else events)
      && (AskAnswer(id, failed, modelWanted, faults) == Escaped <==> stuck)
      && Ends(r.published) == (if stuck then [] else [End(failed.None? && !faults(RequestAudit))])
    ensures AskOrphans(id, failed, modelWanted, faults) == []
  {
    if modelWanted && faults(ModelSetup) {
      assert !faults(Publish(0 + 0, AskEvents(id, failed, faults(RequestAudit))[0]));
      StuckQuestion(id, failed, faults);
    } else {
      AnsweredQuestion(id, failed, modelWanted, faults);
    }
  }

  // ---------- scoring ----------

  datatype Detector = Absent | Answers(anomalous: bool) | Raises

  /** AnomalyDetectionService.detect: no detector is no anomaly, a failing one is. */
  function Detect(detector: Detector): bool {
    match detector case Absent => false case Answers(a) => a case Raises => true
  }

  function MinorUnits(currency: string): real {
    if currency == "JPY" then 1.0
    else if currency == "BHD" || currency == "KWD" || currency == "OMR" || currency == "TND" then 1000.0
    else 100.0
  }

  /** min(1, amount in major units / 10000), rounded by `round`. */
  function BaselineScore(amountMinor: nat, currency: string, round: real -> real): real {
    var s := round(amountMinor as real / MinorUnits(currency) / 10000.0);
    if s <= 1.0 then s else 1.0
  }

  datatype Score = Score(risk: real, decision: string, failureReason: string)

  /** The decision an amount gets from the baseline and the detector. */
  function Scored(baseline: real, detector: Detector): Score {
    var risk := if detector == Answers(true) && baseline < 0.7 then 0.7 else baseline;
    Score(risk, if risk >= 0.7 then "review" else "allow", "")
  }

  function FailedClosed(): Score { Score(0.0, "review", "DOWNSTREAM_TIMEOUT_FAIL_CLOSED") }

  predicate ScoringFails(faults: Faults, detector: Detector) { faults(ScoringPolicy) || detector.Raises? }

  function RiskOf(amountMinor: nat, currency: string, round: real -> real, detector: Detector, faults: Faults): Score {
    if ScoringFails(faults, detector) then FailedClosed()
    else Scored(BaselineScore(amountMinor, currency, round), detector)
  }

  /** A scoring failure always means "review"; "allow" needs a low score and no
      anomaly. */
  lemma AllowedIff(faults: Faults, detector: Detector, amountMinor: nat, currency: string, round: real -> real)
    ensures var s := RiskOf(amountMinor, currency, round, detector, faults);
      && (s.failureReason == "" <==> !ScoringFails(faults, detector))
      && (s.decision == "allow" || s.decision == "review")
      && (s.decision == "allow" <==> !ScoringFails(faults, detector) && detector != Answers(true)
                                     && BaselineScore(amountMinor, currency, round) < 0.7)
  {}

  /** The anomaly service fails closed: with it, an anomaly or a failing detector
      means "review", and scoring itself does not fail for it. */
  lemma AnomalyServiceFailsClosed(inner: Detector, amountMinor: nat, currency: string, round: real -> real,
                                  faults: Faults)
    requires !faults(ScoringPolicy)
    ensures var s := RiskOf(amountMinor, currency, round, Answers(Detect(inner)), faults);
      && s.failureReason == ""
      && (s.decision == "review" <==>
            inner.Raises? || inner == Answers(true) || BaselineScore(amountMinor, currency, round) >= 0.7)
  {}

  /** Without rounding or an anomaly, the review starts at 7000 units of the
      currency, whatever its number of minor digits. */
  lemma ReviewStartsAtSevenThousand(amountMinor: nat, currency: string, detector: Detector)
    requires detector == Absent || detector == Answers(false)
    ensures var minor := if currency == "JPY" then 1
                         else if currency in ["BHD", "KWD", "OMR", "TND"] then 1000 else 100;
      Scored(BaselineScore(amountMinor, currency, x => x), detector).decision == "review"
      <==> amountMinor >= 7000 * minor
  {
    var x := amountMinor as real;
    assert x / 1.0 / 10000.0 >= 0.7 <==> x >= 7000.0;
    assert x / 100.0 / 10000.0 >= 0.7 <==> x >= 700000.0;
    assert x / 1000.0 / 10000.0 >= 0.7 <==> x >= 7000000.0;
  }

  /** With a monotone rounding, a larger amount in the same currency is never
      allowed where a smaller one is reviewed. */
  lemma ReviewIsMonotone(a: nat, b: nat, currency: string, round: real -> real, detector: Detector)
    requires a <= b && forall x: real, y: real :: x <= y ==> round(x) <= round(y)
    requires Scored(BaselineScore(a, currency, round), detector).decision == "review"
    ensures Scored(BaselineScore(b, currency, round), detector).decision == "review"
  {
    var x, y := a as real / MinorUnits(currency) / 10000.0, b as real / MinorUnits(currency) / 10000.0;
    assert x <= y;
    assert round(x) <= round(y);
  }

  // ---------- payments ----------

  datatype Payment = Unavailable | ScoringFailed | Decided

  function ScoreEvents(id: nat, s: Score): seq<Event> {
    (if s.failureReason == "" then [] else [PaymentCompensated(id)])
    + [PaymentScored(id, s.decision, s.risk, s.failureReason)]
  }

  /** The `try` block of `ingest_payment`. */
  function PaymentTry(faults: Faults, id: nat, s: Score): seq<Effect> {
    if faults(PaymentIntake) then [] else [Announce(PaymentIngested(id))] + Announcing(ScoreEvents(id, s))
  }

  /** The first transition and the `try` block. */
  function BeforeConclusion(faults: Faults, id: nat, s: Score): Run {
    Perform(StartEffects() + PaymentTry(faults, id, s), faults, 0)
  }

  function PaymentOutcome(faults: Faults, id: nat, s: Score): Payment {
    if faults(PaymentIntake) || BeforeConclusion(faults, id, s).raised then Unavailable
    else if s.failureReason != "" then ScoringFailed
    else Decided
  }

  /** What follows the `try` block. */
  function ConclusionEffects(o: Payment): seq<Effect> {
    match o
    case Unavailable =>
      Moving(End(false), 1) +
      [Audit(CompensationRecord("payment_ingestion", "UNHANDLED_FAILURE"), CompensationAudit(0))]
    case ScoringFailed =>
      Moving(End(false), 1) +
      [Audit(CompensationRecord("payment_risk_scoring", "DOWNSTREAM_TIMEOUT_FAIL_CLOSED"), CompensationAudit(0))]
    case Decided => Moving(End(true), 1)
  }

  /** Everything a payment publishes and audits, whatever raises. */
  function PaymentRun(faults: Faults, id: nat, s: Score): Run {
    var r := BeforeConclusion(faults, id, s);
    if r.published == [] then r
    else Join(r, Perform(ConclusionEffects(PaymentOutcome(faults, id, s)), faults, r.publishes))
  }

  function PaymentAnswer(faults: Faults, id: nat, s: Score): Answer {
    if PaymentRun(faults, id, s).raised then Escaped
    else Http(if PaymentOutcome(faults, id, s).Unavailable? then 502 else 200)
  }

  lemma {:induction false} AnnouncingFacts(events: seq<Event>)
    requires forall i :: 0 <= i < |events| ==> !IsTransition(events[i])
    ensures Events(Announcing(events)) == events && Paired(Announcing(events))
  {
    if events != [] {
      var front, last := events[..|events| - 1], Announce(events[|events| - 1]);
      AnnouncingFacts(front);
      EventsOfConcat(Announcing(front), [last]);
      EventsOfOne(last);
      PairedOne(last);
      PairedConcat(Announcing(front), [last]);
    }
  }

  lemma ScoreFacts(id: nat, s: Score)
    ensures Events(Announcing(ScoreEvents(id, s))) == ScoreEvents(id, s)
    ensures Paired(Announcing(ScoreEvents(id, s)))
    ensures forall i :: 0 <= i < |ScoreEvents(id, s)| ==> !IsTransition(ScoreEvents(id, s)[i])
  {
    AnnouncingFacts(ScoreEvents(id, s));
  }

  lemma PaymentTryFacts(faults: Faults, id: nat, s: Score)
    ensures Events(StartEffects() + PaymentTry(faults, id, s))
         == [START] + (if faults(PaymentIntake) then [] else [PaymentIngested(id)] + ScoreEvents(id, s))
    ensures Paired(StartEffects() + PaymentTry(faults, id, s))
  {
    MovingFacts(START, 0);
    EventsOfConcat(StartEffects(), PaymentTry(faults, id, s));
    if !faults(PaymentIntake) {
      var first := Announce(PaymentIngested(id));
      ScoreFacts(id, s);
      EventsOfConcat([first], Announcing(ScoreEvents(id, s)));
      EventsOfOne(first);
      PairedOne(first);
      PairedConcat([first], Announcing(ScoreEvents(id, s)));
    }
    PairedConcat(StartEffects(), PaymentTry(faults, id, s));
  }

  lemma ConclusionFacts(o: Payment)
    ensures Events(ConclusionEffects(o)) == [End(o.Decided?)] && Paired(ConclusionEffects(o))
  {
    MovingFacts(End(o.Decided?), 1);
    if !o.Decided? {
      var note := ConclusionEffects(o)[2];
      assert ConclusionEffects(o) == Moving(End(false), 1) + [note];
      EventsOfConcat(Moving(End(false), 1), [note]);
      EventsOfOne(note);
      PairedOne(note);
      PairedConcat(Moving(End(false), 1), [note]);
    }
  }

  lemma PaymentTryHasNoEnd(faults: Faults, id: nat, s: Score)
    ensures var first := BeforeConclusion(faults, id, s);
      && first.published <= [START] + ([PaymentIngested(id)] + ScoreEvents(id, s))
      && (first.published == [] ==> first.raised) && Ends(first.published) == []
  {
    PaymentTryFacts(faults, id, s);
    ScoreFacts(id, s);
    PublishedIsAPrefix(StartEffects() + PaymentTry(faults, id, s), faults, 0);
    FilterNothing(IsTerminal, BeforeConclusion(faults, id, s).published);
  }

  lemma ConclusionRun(o: Payment, faults: Faults, n: nat)
    ensures var last := Perform(ConclusionEffects(o), faults, n);
      && last.raised == faults(Publish(n, End(o.Decided?)))
      && last.published == if last.raised then [] else [End(o.Decided?)]
  {
    ConclusionFacts(o);
    PublishedIsAPrefix(ConclusionEffects(o), faults, n);
    MovingPublishes(ConclusionEffects(o), End(o.Decided?), 1, faults, n);
  }

  /** Whatever raises, a payment publishes its script up to the first publication
      that raises, and then exactly one terminal transition: COMPLETED if intake,
      scoring and their publications succeeded. Only a raise of a transition's own
      publication leaves it without one. */
  lemma PaymentEndsIff(faults: Faults, id: nat, s: Score)
    ensures var r, first := PaymentRun(faults, id, s), BeforeConclusion(faults, id, s);
      var o := PaymentOutcome(faults, id, s);
      && Ends(r.published) == (if r.raised then [] else [End(o.Decided?)])
      && (r.raised <==> first.published == [] || faults(Publish(first.publishes, End(o.Decided?))))
      && (!r.raised ==> r.published == first.published + [End(o.Decided?)])
      && first.published <= [START] + ([PaymentIngested(id)] + ScoreEvents(id, s))
  {
    var first, o := BeforeConclusion(faults, id, s), PaymentOutcome(faults, id, s);
    PaymentTryHasNoEnd(faults, id, s);
    if first.published != [] {
      var last := Perform(ConclusionEffects(o), faults, first.publishes);
      ConclusionRun(o, faults, first.publishes);
      FilterConcat(IsTerminal, first.published, last.published);
      FilterOne(IsTerminal, End(o.Decided?));
    }
  }

  lemma PaymentStopsAt(faults: Faults, id: nat, s: Score)
    requires !faults(PaymentIntake)
    requires forall n, e :: e == START || e in ScoreEvents(id, s) ==> !faults(Publish(n, e))
    ensures var r := BeforeConclusion(faults, id, s);
      && (r.raised <==> faults(Publish(1, PaymentIngested(id))))
      && r.published == if r.raised then [START] else [START] + ([PaymentIngested(id)] + ScoreEvents(id, s))
  {
    var first := StartEffects() + PaymentTry(faults, id, s);
    var events := [START] + ([PaymentIngested(id)] + ScoreEvents(id, s));
    PaymentTryFacts(faults, id, s);
    PublishedIsAPrefix(first, faults, 0);
    var r := BeforeConclusion(faults, id, s);
    assert events[0] == START && events[1] == PaymentIngested(id);
    assert forall k :: 2 <= k < |events| ==> events[k] == ScoreEvents(id, s)[k - 2];
    if r.raised {
      assert |r.published| == 1;
      assert events[..1] == [START];
    } else {
      RunsThroughOnlyIfQuiet(first, faults, 0);
      assert !faults(Publish(0 + 1, events[1]));
    }
  }

  lemma {:induction false} AnnouncingAnnounces(events: seq<Event>)
    ensures forall i :: 0 <= i < |Announcing(events)| ==> Announcing(events)[i].Announce?
  {
    if events != [] { AnnouncingAnnounces(events[..|events| - 1]); }
  }

  lemma OrphanOfPaymentTry(faults: Faults, id: nat, s: Score)
    requires Paired(StartEffects() + PaymentTry(faults, id, s)) && !faults(Publish(0, START))
    ensures Orphan(StartEffects() + PaymentTry(faults, id, s), faults, 0) == []
  {
    var first := StartEffects() + PaymentTry(faults, id, s);
    assert first[1] == Announce(START) && first[2..] == PaymentTry(faults, id, s);
    AnnouncingAnnounces(ScoreEvents(id, s));
    AnnouncesHaveNoOrphan(PaymentTry(faults, id, s), faults, 1);
  }

  /** The transitions of a payment that were audited but, raising, not published. */
  function PaymentOrphans(faults: Faults, id: nat, s: Score): seq<Record> {
    var first, o := BeforeConclusion(faults, id, s), PaymentOutcome(faults, id, s);
    PaymentTryFacts(faults, id, s);
    ConclusionFacts(o);
    Orphan(StartEffects() + PaymentTry(faults, id, s), faults, 0) +
    (if first.published == [] then [] else Orphan(ConclusionEffects(o), faults, first.publishes))
  }

  /** Only the announcement of the payment can raise. */
  ghost predicate QuietButIntake(faults: Faults, id: nat, s: Score) {
    forall n, e :: e == START || e == End(true) || e == End(false) || e in ScoreEvents(id, s) ==>
      !faults(Publish(n, e))
  }

  /** When only the announcement of the payment can raise, that decides whether the
      `try` block fails, and no transition is orphaned. */
  lemma PaymentRaisesIff(faults: Faults, id: nat, s: Score)
    requires QuietButIntake(faults, id, s)
    ensures var o := PaymentOutcome(faults, id, s);
      && (o.Unavailable? <==> faults(PaymentIntake) || faults(Publish(1, PaymentIngested(id))))
      && BeforeConclusion(faults, id, s).published ==
         (if o.Unavailable? then [START] else [START] + ([PaymentIngested(id)] + ScoreEvents(id, s)))
    ensures PaymentOrphans(faults, id, s) == []
  {
    var first, o := StartEffects() + PaymentTry(faults, id, s), PaymentOutcome(faults, id, s);
    PaymentTryFacts(faults, id, s);
    PublishedIsAPrefix(first, faults, 0);
    ConclusionFacts(o);
    QuietHasNoOrphan(ConclusionEffects(o), faults, BeforeConclusion(faults, id, s).publishes);
    if !faults(PaymentIntake) { PaymentStopsAt(faults, id, s); }
    OrphanOfPaymentTry(faults, id, s);
  }

  /** The same for the audited transitions of a payment. */
  lemma PaymentTrail(faults: Faults, id: nat, s: Score)
    ensures PaymentOrphans(faults, id, s) == [] ==> TrailFollows(PaymentRun(faults, id, s))
    ensures NoTransitionAuditFails(faults) && TrailFollows(PaymentRun(faults, id, s)) ==>
      PaymentOrphans(faults, id, s) == []
  {
    var first, o := StartEffects() + PaymentTry(faults, id, s), PaymentOutcome(faults, id, s);
    PaymentTryFacts(faults, id, s);
    ConclusionFacts(o);
    TrailOfOne(first, faults, 0);
    TrailOfTwo(first, ConclusionEffects(o), faults, 0);
  }

  /** The script of a payment with this outcome. */
  function PaymentEvents(o: Payment, id: nat, s: Score): seq<Event> {
    (if o.Unavailable? then [START] else [START] + ([PaymentIngested(id)] + ScoreEvents(id, s))) + [End(o.Decided?)]
  }

  /** When only the announcement of the payment can raise, that decides whether the
      `try` block fails; the payment publishes its script and is answered. */
  lemma QuietPayment(faults: Faults, id: nat, s: Score)
    requires QuietButIntake(faults, id, s)
    ensures var r, o := PaymentRun(faults, id, s), PaymentOutcome(faults, id, s);
      && (o.Unavailable? <==> faults(PaymentIntake) || faults(Publish(1, PaymentIngested(id))))
      && PaymentAnswer(faults, id, s) == Http(if o.Unavailable? then 502 else 200)
      && r.published == PaymentEvents(o, id, s) && Ends(r.published) == [End(o.Decided?)]
      && TrailFollows(r)
  {
    PaymentRaisesIff(faults, id, s);
    PaymentEndsIff(faults, id, s);
    PaymentTrail(faults, id, s);
  }

  // ---------- the documents of a failed ingestion ----------

  ghost predicate IssuedTo(id: string, request: string) {
    exists i: nat, hex: string :: |hex| == 8 && id == Chunking.ChunkId(request, i, hex)
  }

  lemma OtherRequestsId(d: Doc, request: string, i: nat, hex: string)
    requires |hex| == 8 && exists r :: r != request && |r| == |request| && IssuedTo(d.id, r)
    ensures d.id != Chunking.ChunkId(request, i, hex)
  {
    var r :| r != request && |r| == |request| && IssuedTo(d.id, r);
    var k: nat, h: string :| |h| == 8 && d.id == Chunking.ChunkId(r, k, h);
    Chunking.RequestsShareNoId(r, request, k, i, h, hex);
  }

  /** Chunks numbered by one request are new to a store filled by other requests. */
  lemma IngestedChunksAreFresh(docs: seq<Doc>, chunks: seq<Doc>, request: string, hexes: seq<string>)
    requires Distinct(docs) && |hexes| == |chunks| && forall i :: 0 <= i < |hexes| ==> |hexes[i]| == 8
    requires forall i :: 0 <= i < |chunks| ==> chunks[i].id == Chunking.ChunkId(request, i, hexes[i])
    requires forall d :: d in docs ==> exists r :: r != request && |r| == |request| && IssuedTo(d.id, r)
    ensures FreshFor(docs, chunks)
  {
    var all := docs + chunks;
    forall i, j | 0 <= i < j < |all| ensures all[i].id != all[j].id {
      if |docs| <= i {
        Chunking.ChunkIdsDiffer(request, i - |docs|, j - |docs|, hexes[i - |docs|], hexes[j - |docs|]);
      } else if |docs| <= j {
        assert docs[i] in docs;
        OtherRequestsId(docs[i], request, j - |docs|, hexes[j - |docs|]);
      }
    }
  }

  /**
   An ingestion whose audit write fails is rolled back to the recent end of the
   earlier documents: none of its chunks remain, evictions are not undone. If the
   rollback fails as well, its chunks stay.
   */
  lemma AuditFailureKeepsTheRecentEnd(faults: Faults, docs: seq<Doc>, limit: nat, chunks: seq<Doc>)
    requires limit >= 1 && |docs| <= limit && FreshFor(docs, chunks) && IngestionOutcome(faults).AuditFailed?
    ensures DocumentsAfter(IngestionOutcome(faults), faults(StoreRemove), docs, limit, chunks)
         == if faults(StoreRemove) then Last(docs + chunks, limit) else Last(docs, Max(0, limit - |chunks|))
  {
    FreshWrites(docs, limit, chunks);
    RollbackKeepsTheRecentEnd(docs, limit, chunks);
  }
}
