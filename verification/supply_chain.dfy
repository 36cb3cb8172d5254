/**
 The admission gate (ops/supply_chain.py, lines 161-167 and 202-263) and its
 first-seen history across runs (lines 333-339).

 Days are day numbers. A history key is the identity triple itself; the code
 uses a hash of it.
 */
module AdmissionGate {
  import opened Collections
  import opened StringOrder

  datatype Identity = Identity(target: string, package: string, vulnerability: string)

  datatype Finding = Finding(target: string, package: string, version: string, vulnerability: string,
                             aliases: seq<string>, severity: string, fixAvailable: bool,
                             fixVersions: seq<string>, scanner: string)

  datatype Waiver = Waiver(target: string, package: string, version: string, vulnerability: string,
                           severity: string, createdOn: int, expires: int,
                           owner: string, reason: string, approvedBy: string, workOrder: string)

  datatype Error = IdentityMissing | InvalidCatalogue | ExpiredOrInvalid | ApprovalMissing
                 | FutureFirstSeen | InvalidRemediation

  datatype Reason = NoReason | KnownExploited | CriticalWithFix | HighIntroduced | HighAged

  datatype Verdict = Verdict(finding: Finding, introduced: bool, firstSeen: int, kev: bool,
                             reason: Reason, waiver: Option<Waiver>, blocked: bool)

  type History = map<Identity, int>

  /** date(2026, 10, 19) as a proleptic Gregorian day number. */
  const INITIAL_DAY: int := 739908

  // ---------- findings ----------

  predicate IsCve(id: string) { |id| >= 4 && id[..4] == "CVE-" }

  /** `next((x for x in ids if x.startswith('CVE-')), default)` */
  function FirstCve(ids: seq<string>, default: string): string {
    if ids == [] then default else if IsCve(ids[0]) then ids[0] else FirstCve(ids[1..], default)
  }

  function NewFinding(target: string, package: string, version: string, aliases: seq<string>,
                      level: string, fixes: seq<string>, scanner: string): Result<Finding, Error>
  {
    var ids := SortedSet(aliases);
    if ids == [] then Err(IdentityMissing)
    else Ok(Finding(target, package, version, FirstCve(ids, ids[0]), ids, level,
                    fixes != [], SortedSet(fixes), scanner))
  }

  function Id(f: Finding): Identity { Identity(f.target, f.package, f.vulnerability) }

  ghost predicate SameMembers<T(!new)>(xs: seq<T>, ys: seq<T>) { forall x :: x in xs <==> x in ys }

  /** A finding does not depend on the order or repetition of aliases and fixes. */
  lemma FindingIgnoresAliasOrder(target: string, package: string, version: string, level: string, scanner: string,
                                 aliases: seq<string>, aliases2: seq<string>, fixes: seq<string>, fixes2: seq<string>)
    requires SameMembers(aliases, aliases2) && SameMembers(fixes, fixes2)
    ensures NewFinding(target, package, version, aliases, level, fixes, scanner)
         == NewFinding(target, package, version, aliases2, level, fixes2, scanner)
  {
    SortedSetFacts(aliases);
    SortedSetFacts(aliases2);
    SortedIsUnique(SortedSet(aliases), SortedSet(aliases2));
    SortedSetFacts(fixes);
    SortedSetFacts(fixes2);
    SortedIsUnique(SortedSet(fixes), SortedSet(fixes2));
    if fixes != [] { assert fixes[0] in fixes2; }
    if fixes2 != [] { assert fixes2[0] in fixes; }
  }

  lemma {:induction false} FirstCveIsLeast(ids: seq<string>, default: string)
    requires StrictlySorted(ids)
    ensures (exists x :: x in ids && IsCve(x)) ==>
              FirstCve(ids, default) in ids && IsCve(FirstCve(ids, default))
              && forall x :: x in ids && IsCve(x) ==> AtMost(FirstCve(ids, default), x)
    ensures (forall x :: x in ids ==> !IsCve(x)) ==> FirstCve(ids, default) == default
  {
    if ids != [] {
      assert ids == [ids[0]] + ids[1..];
      if IsCve(ids[0]) {
        forall x | x in ids && IsCve(x) ensures AtMost(ids[0], x) {
          var i :| 0 <= i < |ids| && ids[i] == x;
          if i > 0 { assert Less(ids[0], ids[i]); } else { Total(x, x); }
        }
      } else {
        FirstCveIsLeast(ids[1..], default);
      }
    }
  }

  /** The identity is the least CVE among the aliases, else the least alias; no
      alias at all is an error. */
  lemma VulnerabilityIsLeast(target: string, package: string, version: string, aliases: seq<string>,
                             level: string, fixes: seq<string>, scanner: string)
    ensures var r := NewFinding(target, package, version, aliases, level, fixes, scanner);
      && (r.Err? <==> aliases == [])
      && (r.Ok? ==>
            var v := r.value.vulnerability;
            && v in aliases
            && (forall x :: x in aliases && IsCve(x) ==> IsCve(v) && AtMost(v, x))
            && ((forall x :: x in aliases ==> !IsCve(x)) ==> forall x :: x in aliases ==> AtMost(v, x)))
  {
    SortedSetFacts(aliases);
    var ids := SortedSet(aliases);
    if aliases != [] { assert aliases[0] in ids; }
    if ids != [] {
      assert ids[0] in aliases;
      FirstCveIsLeast(ids, ids[0]);
      forall x | x in ids ensures AtMost(ids[0], x) {
        var i :| 0 <= i < |ids| && ids[i] == x;
        if i > 0 { assert Less(ids[0], ids[i]); } else { Total(x, x); }
      }
    }
  }

  /** The other fields of a finding: it is fixable exactly if some fix is listed, and its
      aliases and fixes are those given. */
  lemma FindingIs(target: string, package: string, version: string, aliases: seq<string>,
                  level: string, fixes: seq<string>, scanner: string)
    requires aliases != []
    ensures var r := NewFinding(target, package, version, aliases, level, fixes, scanner);
      && r.Ok? && (r.value.fixAvailable <==> exists x :: x in fixes)
      && SameMembers(r.value.aliases, aliases) && StrictlySorted(r.value.aliases)
      && SameMembers(r.value.fixVersions, fixes) && StrictlySorted(r.value.fixVersions)
      && r.value.target == target && r.value.package == package && r.value.version == version
      && r.value.severity == level && r.value.scanner == scanner
  {
    SortedSetFacts(aliases);
    SortedSetFacts(fixes);
    assert aliases[0] in SortedSet(aliases);
    if fixes != [] { assert fixes[0] in fixes; }
  }

  // ---------- exceptions ----------

  function MaxDays(severity: string): int {
    if severity == "Critical" then 30 else if severity == "High" then 60 else 90
  }

  predicate WithinTerm(w: Waiver, on: int) {
    w.createdOn <= on <= w.expires && 0 <= w.expires - w.createdOn <= MaxDays(w.severity)
  }

  predicate Approved(w: Waiver) { w.owner != "" && w.reason != "" && w.approvedBy == "amazen33" }

  /** The error of the first entry that is not acceptable on day `on`, if any. */
  function FirstInvalid(ws: seq<Waiver>, on: int): Option<Error> {
    if ws == [] then None
    else if !WithinTerm(ws[0], on) then Some(ExpiredOrInvalid)
    else if !Approved(ws[0]) then Some(ApprovalMissing)
    else FirstInvalid(ws[1..], on)
  }

  method ValidateExceptions(exceptions: seq<Waiver>, on: int) returns (r: Result<seq<Waiver>, Error>)
    ensures r == match FirstInvalid(exceptions, on) case None => Ok(exceptions) case Some(e) => Err(e)
    ensures r.Ok? <==> forall i :: 0 <= i < |exceptions| ==> WithinTerm(exceptions[i], on) && Approved(exceptions[i])
  {
    var validated := [];
    var i := 0;
    while i < |exceptions|
      invariant i <= |exceptions| && validated == exceptions[..i]
      invariant forall j :: 0 <= j < i ==> WithinTerm(exceptions[j], on) && Approved(exceptions[j])
      invariant FirstInvalid(exceptions, on) == FirstInvalid(exceptions[i..], on)
    {
      var entry := exceptions[i];
      assert exceptions[i..][1..] == exceptions[i + 1..];
      if !WithinTerm(entry, on) { return Err(ExpiredOrInvalid); }
      if !Approved(entry) { return Err(ApprovalMissing); }
      validated := validated + [entry];
      i := i + 1;
    }
    assert exceptions[i..] == [] && validated == exceptions;
    r := Ok(validated);
  }

  /** The days on which one exception is accepted: those of its term, if that is no longer
      than its severity allows and the owner approved it; otherwise none. */
  lemma AcceptedDays(w: Waiver, on: int)
    ensures FirstInvalid([w], on).None? <==>
      && w.createdOn <= on <= w.expires
      && w.expires - w.createdOn <= (if w.severity == "Critical" then 30 else if w.severity == "High" then 60 else 90)
      && w.owner != "" && w.reason != "" && w.approvedBy == "amazen33"
    ensures FirstInvalid([w], on) == Some(ApprovalMissing) <==>
      && w.createdOn <= on <= w.expires
      && w.expires - w.createdOn <= (if w.severity == "Critical" then 30 else if w.severity == "High" then 60 else 90)
      && (w.owner == "" || w.reason == "" || w.approvedBy != "amazen33")
  {
    assert [w][1..] == [];
  }

  /** Exceptions are accepted together exactly if each is on its own; otherwise the first
      that is not gives the error. */
  lemma {:induction false} AllAccepted(ws: seq<Waiver>, on: int)
    ensures FirstInvalid(ws, on).None? <==> forall i :: 0 <= i < |ws| ==> FirstInvalid([ws[i]], on).None?
    ensures FirstInvalid(ws, on).Some? ==>
      exists i :: 0 <= i < |ws| && FirstInvalid(ws, on) == FirstInvalid([ws[i]], on)
                  && forall j :: 0 <= j < i ==> FirstInvalid([ws[j]], on).None?
  {
    if ws != [] {
      assert FirstInvalid([ws[0]][1..], on).None?;
      AllAccepted(ws[1..], on);
      assert forall i :: 0 <= i < |ws[1..]| ==> ws[1..][i] == ws[i + 1];
      if FirstInvalid([ws[0]], on).None? && FirstInvalid(ws, on).Some? {
        var i :| 0 <= i < |ws[1..]| && FirstInvalid(ws[1..], on) == FirstInvalid([ws[1..][i]], on)
                 && forall j :: 0 <= j < i ==> FirstInvalid([ws[1..][j]], on).None?;
        assert FirstInvalid(ws, on) == FirstInvalid([ws[i + 1]], on);
        forall j | 0 <= j < i + 1 ensures FirstInvalid([ws[j]], on).None? {
          if j > 0 { assert ws[j] == ws[1..][j - 1]; }
        }
      }
    }
  }

  // ---------- one finding ----------

  function BlockReason(f: Finding, isKev: bool, introduced: bool, first: int, on: int): Reason {
    if isKev then KnownExploited
    else if !f.fixAvailable then NoReason
    else if f.severity == "Critical" then CriticalWithFix
    else if f.severity == "High" then
      if introduced then HighIntroduced
      else if on - first >= 14 then HighAged
      else NoReason
    else NoReason
  }

  predicate Overlap(xs: seq<string>, ys: seq<string>) { exists x | x in xs :: x in ys }

  /** What a run evaluates against: earlier findings, known exploited ids, valid
      exceptions and the day. */
  datatype Context = Context(previous: seq<Finding>, kev: set<string>, waivers: seq<Waiver>, on: int)

  predicate Introduced(ctx: Context, f: Finding) {
    !exists p | p in ctx.previous :: p.target == f.target && p.package == f.package && Overlap(p.aliases, f.aliases)
  }

  function Initial(ctx: Context, f: Finding): int {
    if Introduced(ctx, f) || ctx.on <= INITIAL_DAY then ctx.on else INITIAL_DAY
  }

  function FirstSeen(ctx: Context, h: History, f: Finding): int {
    if Id(f) in h then h[Id(f)] else Initial(ctx, f)
  }

  predicate IsKev(ctx: Context, f: Finding) { exists a | a in f.aliases :: a in ctx.kev }

  predicate Names(w: Waiver, f: Finding) {
    w.target == f.target && w.package == f.package && w.version == f.version && w.vulnerability == f.vulnerability
  }

  /** The first exception that names the finding exactly. */
  function Matching(ws: seq<Waiver>, f: Finding): Option<Waiver> {
    if ws == [] then None
    else if Names(ws[0], f) then Some(ws[0])
    else Matching(ws[1..], f)
  }

  predicate WaiverUsable(w: Option<Waiver>, f: Finding) {
    w.Some? ==> w.value.severity == f.severity && (f.fixAvailable ==> w.value.workOrder != "")
  }

  function Judge(ctx: Context, h: History, f: Finding): Result<Verdict, Error> {
    var first := FirstSeen(ctx, h, f);
    var waiver := Matching(ctx.waivers, f);
    var reason := BlockReason(f, IsKev(ctx, f), Introduced(ctx, f), first, ctx.on);
    if first > ctx.on then Err(FutureFirstSeen)
    else if !WaiverUsable(waiver, f) then Err(InvalidRemediation)
    else Ok(Verdict(f, Introduced(ctx, f), first, IsKev(ctx, f), reason, waiver,
                    reason != NoReason && waiver.None?))
  }

  /** The history after one finding; a future date is rejected before it is stored. */
  function Note(ctx: Context, h: History, f: Finding): History {
    if FirstSeen(ctx, h, f) > ctx.on then h else h[Id(f) := FirstSeen(ctx, h, f)]
  }

  lemma {:induction false} MatchingIsFirst(ws: seq<Waiver>, f: Finding)
    ensures Matching(ws, f).None? <==> forall w :: w in ws ==> !Names(w, f)
    ensures Matching(ws, f).Some? ==>
      exists i :: 0 <= i < |ws| && Matching(ws, f) == Some(ws[i]) && Names(ws[i], f)
                  && forall j :: 0 <= j < i ==> !Names(ws[j], f)
  {
    if ws != [] {
      var rest := ws[1..];
      MatchingIsFirst(rest, f);
      assert ws == [ws[0]] + rest;
      if !Names(ws[0], f) && Matching(ws, f).Some? {
        var i :| 0 <= i < |rest| && Matching(rest, f) == Some(rest[i]) && Names(rest[i], f)
                 && forall j :: 0 <= j < i ==> !Names(rest[j], f);
        assert ws[i + 1] == rest[i];
        forall j | 0 <= j < i + 1 ensures !Names(ws[j], f) {
          if j > 0 { assert ws[j] == rest[j - 1]; }
        }
      }
    }
  }

  /** A finding is known exploited if the catalogue lists one of its aliases. */
  ghost predicate Exploited(ctx: Context, f: Finding) { exists a :: a in f.aliases && a in ctx.kev }

  /** No earlier finding of the same package on the same target shares an alias. */
  ghost predicate Unseen(ctx: Context, f: Finding) {
    forall p, a :: p in ctx.previous && p.target == f.target && p.package == f.package && a in f.aliases ==>
      a !in p.aliases
  }

  lemma IntroducedIsUnseen(ctx: Context, f: Finding)
    ensures Introduced(ctx, f) <==> Unseen(ctx, f)
  {
    if Unseen(ctx, f) {
      forall p | p in ctx.previous && p.target == f.target && p.package == f.package
        ensures !Overlap(p.aliases, f.aliases)
      {}
    }
    if Introduced(ctx, f) {
      forall p, a | p in ctx.previous && p.target == f.target && p.package == f.package && a in f.aliases
        ensures a !in p.aliases
      {
        assert !Overlap(p.aliases, f.aliases);
      }
    }
  }

  /** What a verdict blocks: a known exploited finding, a fixable Critical, and a
      fixable High that is new or was first seen at least fourteen days ago, unless
      an exception names the finding. */
  lemma VerdictBlocksIff(ctx: Context, h: History, f: Finding)
    requires Judge(ctx, h, f).Ok?
    ensures var v := Judge(ctx, h, f).value;
      var aged := ctx.on - v.firstSeen >= 14;
      && v.finding == f && (v.introduced <==> Unseen(ctx, f)) && (v.kev <==> Exploited(ctx, f))
      && v.firstSeen <= ctx.on
      && (v.reason != NoReason <==>
            v.kev || (f.fixAvailable && (f.severity == "Critical" || (f.severity == "High" && (v.introduced || aged)))))
      && (v.blocked <==> v.reason != NoReason && forall w :: w in ctx.waivers ==> !Names(w, f))
  {
    MatchingIsFirst(ctx.waivers, f);
    IntroducedIsUnseen(ctx, f);
  }

  /** The date of a finding: the recorded one, else the day of the run if it is new, and
      otherwise no later than the initial date. */
  lemma FirstSeenIs(ctx: Context, h: History, f: Finding)
    ensures FirstSeen(ctx, h, f) ==
      if Id(f) in h then h[Id(f)] else if Unseen(ctx, f) then ctx.on else if ctx.on <= 739908 then ctx.on else 739908
  {
    IntroducedIsUnseen(ctx, f);
  }

  /** Two findings are one identity exactly if target, package and vulnerability agree. */
  lemma SameIdentityIff(f: Finding, g: Finding)
    ensures Id(f) == Id(g) <==> f.target == g.target && f.package == g.package && f.vulnerability == g.vulnerability
  {}

  /** An exception lifts the block exactly if it names target, package, version and
      vulnerability of the finding. */
  lemma ExceptionLiftsIff(ctx: Context, h: History, f: Finding)
    requires Judge(ctx, h, f).Ok?
    ensures var v := Judge(ctx, h, f).value;
      var named := exists w :: w in ctx.waivers && w.target == f.target && w.package == f.package
                               && w.version == f.version && w.vulnerability == f.vulnerability;
      && (v.blocked <==> v.reason != NoReason && !named)
      && (v.waiver.Some? <==> named) && (v.waiver.Some? ==> v.waiver.value in ctx.waivers)
  {
    VerdictBlocksIff(ctx, h, f);
    MatchingIsFirst(ctx.waivers, f);
    if w :| w in ctx.waivers && w.target == f.target && w.package == f.package
            && w.version == f.version && w.vulnerability == f.vulnerability {
      assert Names(w, f);
    }
    if v :| v in ctx.waivers && Names(v, f) { assert v.version == f.version; }
  }

  /** The initial date, 19 October 2026, counted in the Gregorian calendar. */
  lemma InitialDayIs()
    ensures var y := 2026 - 1; INITIAL_DAY == 365 * y + y / 4 - y / 100 + y / 400
                                 + (31 + 28 + 31 + 30 + 31 + 30 + 31 + 31 + 30) + 19
  {}

  lemma {:induction false} FirstNamed(ws: seq<Waiver>, f: Finding, i: nat)
    requires i < |ws| && Names(ws[i], f) && forall j :: 0 <= j < i ==> !Names(ws[j], f)
    ensures Matching(ws, f) == Some(ws[i])
  {
    if i > 0 {
      assert forall j :: 0 <= j < i - 1 ==> !Names(ws[1..][j], f);
      FirstNamed(ws[1..], f, i - 1);
    }
  }

  /** When a finding is an error, and with which one. */
  lemma JudgeFailsIff(ctx: Context, h: History, f: Finding)
    ensures Judge(ctx, h, f) == Err(FutureFirstSeen) <==> Id(f) in h && h[Id(f)] > ctx.on
    ensures Judge(ctx, h, f) == Err(InvalidRemediation) <==>
      && (Id(f) in h ==> h[Id(f)] <= ctx.on)
      && exists i :: 0 <= i < |ctx.waivers| && Names(ctx.waivers[i], f)
           && (forall j :: 0 <= j < i ==> !Names(ctx.waivers[j], f))
           && (ctx.waivers[i].severity != f.severity || (f.fixAvailable && ctx.waivers[i].workOrder == ""))
    ensures Judge(ctx, h, f).Err? ==> Judge(ctx, h, f).error in {FutureFirstSeen, InvalidRemediation}
  {
    MatchingIsFirst(ctx.waivers, f);
    FirstSeenIs(ctx, h, f);
    if i :| 0 <= i < |ctx.waivers| && Names(ctx.waivers[i], f) && forall j :: 0 <= j < i ==> !Names(ctx.waivers[j], f) {
      FirstNamed(ctx.waivers, f, i);
    }
  }

  /** The reason that is reported, of the four. */
  lemma ReasonIs(ctx: Context, h: History, f: Finding)
    requires Judge(ctx, h, f).Ok?
    ensures var r := Judge(ctx, h, f).value.reason;
      var fixable := !Exploited(ctx, f) && f.fixAvailable;
      var age := ctx.on - (if Id(f) in h then h[Id(f)] else if ctx.on <= 739908 then ctx.on else 739908);
      && (r == KnownExploited <==> Exploited(ctx, f))
      && (r == CriticalWithFix <==> fixable && f.severity == "Critical")
      && (r == HighIntroduced <==> fixable && f.severity == "High" && Unseen(ctx, f))
      && (r == HighAged <==> fixable && f.severity == "High" && !Unseen(ctx, f) && age >= 14)
  {
    VerdictBlocksIff(ctx, h, f);
    FirstSeenIs(ctx, h, f);
    assert |"Critical"| != |"High"|;
  }

  /** A fixable High that the previous scan also lists is blocked in its very first run
      from fourteen days after the initial date on, unless an exception names it. */
  lemma KnownHighIsOldAtOnce(ctx: Context, h: History, f: Finding)
    requires Judge(ctx, h, f).Ok? && Id(f) !in h && !Unseen(ctx, f) && !Exploited(ctx, f)
    requires f.severity == "High" && f.fixAvailable
    ensures var v := Judge(ctx, h, f).value;
      && v.firstSeen == (if ctx.on <= INITIAL_DAY then ctx.on else INITIAL_DAY)
      && (v.blocked <==> ctx.on >= INITIAL_DAY + 14 && forall w :: w in ctx.waivers ==> !Names(w, f))
  {
    VerdictBlocksIff(ctx, h, f);
    FirstSeenIs(ctx, h, f);
    assert |"Critical"| != |"High"|;
  }

  // ---------- the gate ----------

  function EvaluateAll(ctx: Context, h: History, fs: seq<Finding>): Result<(seq<Verdict>, History), Error>
    decreases fs
  {
    if fs == [] then Ok(([], h))
    else
      match Judge(ctx, h, fs[0])
      case Err(e) => Err(e)
      case Ok(v) =>
        match EvaluateAll(ctx, Note(ctx, h, fs[0]), fs[1..])
        case Err(e) => Err(e)
        case Ok((vs, h2)) => Ok(([v] + vs, h2))
  }

  datatype Catalogue = Malformed | Catalogue(ids: seq<string>)

  datatype Input = Input(findings: seq<Finding>, previous: seq<Finding>, kev: Catalogue,
                         exceptions: seq<Waiver>, on: int)

  function ContextOf(run: Input): Context
    requires run.kev.Catalogue?
  {
    Context(run.previous, (set id | id in run.kev.ids), run.exceptions, run.on)
  }

  function Outcome(run: Input, state: History): Result<(seq<Verdict>, History), Error> {
    if run.kev.Malformed? then Err(InvalidCatalogue)
    else
      match FirstInvalid(run.exceptions, run.on)
      case Some(e) => Err(e)
      case None => EvaluateAll(ContextOf(run), state, run.findings)
  }

  /** The dictionary that `evaluate_one` updates in place. */
  class Ledger {
    var firstSeen: History

    constructor (state: History)
      ensures firstSeen == state
    {
      firstSeen := state;
    }

    method EvaluateOne(ctx: Context, raw: Finding) returns (r: Result<Verdict, Error>)
      modifies this
      ensures firstSeen == Note(ctx, old(firstSeen), raw)
      ensures r == Judge(ctx, old(firstSeen), raw)
    {
      var introduced := Introduced(ctx, raw);
      var initial := if introduced then ctx.on else if INITIAL_DAY <= ctx.on then INITIAL_DAY else ctx.on;
      var first := if Id(raw) in firstSeen then firstSeen[Id(raw)] else initial;
      if first > ctx.on { return Err(FutureFirstSeen); }
      firstSeen := firstSeen[Id(raw) := first];
      var isKev := IsKev(ctx, raw);
      var reason := BlockReason(raw, isKev, introduced, first, ctx.on);
      var waiver := Matching(ctx.waivers, raw);
      if waiver.Some? && (waiver.value.severity != raw.severity || (raw.fixAvailable && waiver.value.workOrder == "")) {
        return Err(InvalidRemediation);
      }
      r := Ok(Verdict(raw, introduced, first, isKev, reason, waiver, reason != NoReason && waiver.None?));
    }
  }

  /** The result of a run that already has the verdicts `done`. */
  function Resume(done: seq<Verdict>, r: Result<(seq<Verdict>, History), Error>)
    : Result<(seq<Verdict>, History), Error>
  {
    match r case Err(e) => Err(e) case Ok((vs, h)) => Ok((done + vs, h))
  }

  lemma ResumeStep(ctx: Context, h: History, fs: seq<Finding>, done: seq<Verdict>)
    requires fs != [] && Judge(ctx, h, fs[0]).Ok?
    ensures Resume(done, EvaluateAll(ctx, h, fs))
         == Resume(done + [Judge(ctx, h, fs[0]).value], EvaluateAll(ctx, Note(ctx, h, fs[0]), fs[1..]))
  {
    var rest := EvaluateAll(ctx, Note(ctx, h, fs[0]), fs[1..]);
    if rest.Ok? {
      var v := Judge(ctx, h, fs[0]).value;
      assert done + ([v] + rest.value.0) == (done + [v]) + rest.value.0;
    }
  }

  lemma ResumeFromNothing(r: Result<(seq<Verdict>, History), Error>)
    ensures Resume([], r) == r
  {
    if r.Ok? { assert [] + r.value.0 == r.value.0; }
  }

  method Evaluate(run: Input, state: History) returns (r: Result<(seq<Verdict>, History), Error>)
    ensures r == Outcome(run, state)
  {
    if run.kev.Malformed? { return Err(InvalidCatalogue); }
    var validated := ValidateExceptions(run.exceptions, run.on);
    if validated.Err? { return Err(validated.error); }
    var ctx := ContextOf(run).(waivers := validated.value);
    assert ctx == ContextOf(run);
    var ledger := new Ledger(state);
    var result := [];
    var i := 0;
    ResumeFromNothing(EvaluateAll(ctx, state, run.findings));
    assert run.findings[0..] == run.findings;
    while i < |run.findings|
      invariant i <= |run.findings|
      invariant fresh(ledger)
      invariant EvaluateAll(ctx, state, run.findings)
             == Resume(result, EvaluateAll(ctx, ledger.firstSeen, run.findings[i..]))
    {
      assert run.findings[i..][1..] == run.findings[i + 1..];
      ghost var before := ledger.firstSeen;
      var v := ledger.EvaluateOne(ctx, run.findings[i]);
      if v.Err? { return Err(v.error); }
      ResumeStep(ctx, before, run.findings[i..], result);
      result := result + [v.value];
      i := i + 1;
    }
    assert run.findings[i..] == [] && result + [] == result;
    r := Ok((result, ledger.firstSeen));
  }

  // ---------- what one run does to the history ----------

  /** Entries are only added, and an added date is never later than the run. */
  ghost predicate Extends(h: History, h2: History, on: int) {
    && (forall id :: id in h ==> id in h2 && h2[id] == h[id])
    && (forall id :: id in h2 && id !in h ==> h2[id] <= on)
  }

  lemma {:induction false} RunExtends(ctx: Context, h: History, fs: seq<Finding>)
    requires EvaluateAll(ctx, h, fs).Ok?
    ensures Extends(h, EvaluateAll(ctx, h, fs).value.1, ctx.on)
    decreases fs
  {
    if fs != [] { RunExtends(ctx, Note(ctx, h, fs[0]), fs[1..]); }
  }

  /** The error of the first finding that fails on its own. */
  function FirstFailure(ctx: Context, h: History, fs: seq<Finding>): Option<Error> {
    if fs == [] then None
    else if Judge(ctx, h, fs[0]).Err? then Some(Judge(ctx, h, fs[0]).error)
    else FirstFailure(ctx, h, fs[1..])
  }

  lemma {:induction false} WaiverErrors(ws: seq<Waiver>, on: int)
    ensures FirstInvalid(ws, on) in {None, Some(ExpiredOrInvalid), Some(ApprovalMissing)}
  {
    if ws != [] { WaiverErrors(ws[1..], on); }
  }

  lemma FailureAfterFirst(ctx: Context, h: History, fs: seq<Finding>, i: nat)
    requires i + 1 < |fs| && Judge(ctx, h, fs[0]).Ok?
    requires forall j :: 0 <= j < i ==> Judge(ctx, h, fs[1..][j]).Ok?
    ensures Judge(ctx, h, fs[i + 1]) == Judge(ctx, h, fs[1..][i])
    ensures forall j :: 0 <= j < i + 1 ==> Judge(ctx, h, fs[j]).Ok?
  {
    forall j | 0 <= j < i + 1 ensures Judge(ctx, h, fs[j]).Ok? {
      if j > 0 { assert fs[j] == fs[1..][j - 1]; }
    }
  }

  lemma {:induction false} FirstFailureIsFirst(ctx: Context, h: History, fs: seq<Finding>)
    ensures FirstFailure(ctx, h, fs).None? <==> forall i :: 0 <= i < |fs| ==> Judge(ctx, h, fs[i]).Ok?
    ensures FirstFailure(ctx, h, fs).Some? ==>
      exists i :: 0 <= i < |fs| && Judge(ctx, h, fs[i]) == Err(FirstFailure(ctx, h, fs).value)
                  && forall j :: 0 <= j < i ==> Judge(ctx, h, fs[j]).Ok?
  {
    if fs != [] && Judge(ctx, h, fs[0]).Ok? {
      var rest := fs[1..];
      FirstFailureIsFirst(ctx, h, rest);
      assert forall i :: 0 <= i < |rest| ==> rest[i] == fs[i + 1];
      if FirstFailure(ctx, h, fs).Some? {
        var i :| 0 <= i < |rest| && Judge(ctx, h, rest[i]) == Err(FirstFailure(ctx, h, rest).value)
                 && forall j :: 0 <= j < i ==> Judge(ctx, h, rest[j]).Ok?;
        FailureAfterFirst(ctx, h, fs, i);
      }
    }
  }

  /** Noting one finding that passed does not change which others fail. */
  lemma {:induction false} NoteKeepsFailures(ctx: Context, h: History, f: Finding, fs: seq<Finding>)
    requires Judge(ctx, h, f).Ok?
    ensures FirstFailure(ctx, Note(ctx, h, f), fs) == FirstFailure(ctx, h, fs)
  {
    if fs != [] { NoteKeepsFailures(ctx, h, f, fs[1..]); }
  }

  lemma {:induction false} RunFailsAtFirst(ctx: Context, h: History, fs: seq<Finding>)
    ensures EvaluateAll(ctx, h, fs).Ok? <==> FirstFailure(ctx, h, fs).None?
    ensures EvaluateAll(ctx, h, fs).Err? ==> FirstFailure(ctx, h, fs) == Some(EvaluateAll(ctx, h, fs).error)
    decreases fs
  {
    if fs != [] && Judge(ctx, h, fs[0]).Ok? {
      RunFailsAtFirst(ctx, Note(ctx, h, fs[0]), fs[1..]);
      NoteKeepsFailures(ctx, h, fs[0], fs[1..]);
    }
  }

  /** A run fails exactly when one of its findings fails on its own, and for the
      reason of the first such finding. */
  lemma RunFailsLikeItsFindings(ctx: Context, h: History, fs: seq<Finding>)
    ensures EvaluateAll(ctx, h, fs).Ok? <==> forall i :: 0 <= i < |fs| ==> Judge(ctx, h, fs[i]).Ok?
    ensures EvaluateAll(ctx, h, fs).Err? ==>
      exists i :: 0 <= i < |fs| && Judge(ctx, h, fs[i]) == Err(EvaluateAll(ctx, h, fs).error)
                  && forall j :: 0 <= j < i ==> Judge(ctx, h, fs[j]).Ok?
  {
    RunFailsAtFirst(ctx, h, fs);
    FirstFailureIsFirst(ctx, h, fs);
  }

  /** A run fails for a malformed catalogue, else for its first unacceptable exception,
      else for its first finding that fails on its own. */
  lemma RunSucceedsIff(run: Input, state: History)
    ensures Outcome(run, state) == Err(InvalidCatalogue) <==> run.kev.Malformed?
    ensures
      (run.kev.Catalogue?
       && exists i :: 0 <= i < |run.exceptions| && FirstInvalid([run.exceptions[i]], run.on).Some?) ==>
      Outcome(run, state).Err? && Outcome(run, state).error in {ExpiredOrInvalid, ApprovalMissing}
    ensures Outcome(run, state).Ok? <==>
      && run.kev.Catalogue?
      && (forall i :: 0 <= i < |run.exceptions| ==> FirstInvalid([run.exceptions[i]], run.on).None?)
      && (forall i :: 0 <= i < |run.findings| ==> Judge(ContextOf(run), state, run.findings[i]).Ok?)
  {
    AllAccepted(run.exceptions, run.on);
    if run.kev.Catalogue? {
      RunFailsLikeItsFindings(ContextOf(run), state, run.findings);
      forall i | 0 <= i < |run.findings| { JudgeFailsIff(ContextOf(run), state, run.findings[i]); }
    }
    WaiverErrors(run.exceptions, run.on);
  }

  lemma {:induction false} VerdictOf(ctx: Context, h: History, fs: seq<Finding>, i: nat) returns (h2: History)
    requires EvaluateAll(ctx, h, fs).Ok? && i < |fs|
    ensures i < |EvaluateAll(ctx, h, fs).value.0| && Judge(ctx, h2, fs[i]) == Ok(EvaluateAll(ctx, h, fs).value.0[i])
    decreases fs
  {
    h2 := h;
    if i > 0 { h2 := VerdictOf(ctx, Note(ctx, h, fs[0]), fs[1..], i - 1); }
  }

  /** Each finding of a run gets a verdict of its own, against the previous findings, the
      catalogue, the exceptions and the day of that run. */
  lemma RunJudgesEach(run: Input, state: History, i: nat)
    requires Outcome(run, state).Ok? && i < |run.findings|
    ensures i < |Outcome(run, state).value.0|
    ensures var v, f := Outcome(run, state).value.0[i], run.findings[i];
      && v.finding == f && v.firstSeen <= run.on
      && (v.introduced <==>
            forall p, a :: p in run.previous && p.target == f.target && p.package == f.package && a in f.aliases ==>
              a !in p.aliases)
      && (v.kev <==> exists a :: a in f.aliases && a in run.kev.ids)
      && (v.blocked <==>
            && v.reason != NoReason
            && forall w :: w in run.exceptions ==>
                 (w.target, w.package, w.version, w.vulnerability) != (f.target, f.package, f.version, f.vulnerability))
  {
    var ctx, f := ContextOf(run), run.findings[i];
    var h := VerdictOf(ctx, state, run.findings, i);
    VerdictBlocksIff(ctx, h, f);
    ExceptionLiftsIff(ctx, h, f);
    if a :| a in f.aliases && a in run.kev.ids { assert a in ctx.kev; }
  }

  // ---------- order independence ----------

  /** Findings of one new identity agree on the date they would be given. */
  ghost predicate Consistent(ctx: Context, h: History, fs: seq<Finding>) {
    forall i, j :: 0 <= i < |fs| && 0 <= j < |fs| && Id(fs[i]) == Id(fs[j]) && Id(fs[i]) !in h ==>
      Initial(ctx, fs[i]) == Initial(ctx, fs[j])
  }

  /** Agreement on `introduced` is enough. */
  lemma SameIntroducedIsConsistent(ctx: Context, h: History, fs: seq<Finding>)
    requires forall i, j :: 0 <= i < |fs| && 0 <= j < |fs| && Id(fs[i]) == Id(fs[j]) ==>
               Introduced(ctx, fs[i]) == Introduced(ctx, fs[j])
    ensures Consistent(ctx, h, fs)
  {}

  ghost predicate VerdictsFit(ctx: Context, h: History, fs: seq<Finding>, vs: seq<Verdict>) {
    |vs| == |fs| && forall i :: 0 <= i < |fs| ==> Judge(ctx, h, fs[i]) == Ok(vs[i])
  }

  ghost predicate DatesFit(ctx: Context, h: History, fs: seq<Finding>, h2: History) {
    forall i :: 0 <= i < |fs| ==> Id(fs[i]) in h2 && h2[Id(fs[i])] == FirstSeen(ctx, h, fs[i])
  }

  ghost predicate OnlyFound(h: History, fs: seq<Finding>, h2: History) {
    && (forall id :: id in h ==> id in h2 && h2[id] == h[id])
    && (forall id :: id in h2 && id !in h ==> exists i :: 0 <= i < |fs| && Id(fs[i]) == id)
  }

  /** Without in-run dependence: each verdict comes from the incoming history. */
  ghost predicate Pointwise(ctx: Context, h: History, fs: seq<Finding>, vs: seq<Verdict>, h2: History) {
    VerdictsFit(ctx, h, fs, vs) && DatesFit(ctx, h, fs, h2) && OnlyFound(h, fs, h2)
  }

  lemma NoteKeepsConsistent(ctx: Context, h: History, fs: seq<Finding>)
    requires fs != [] && Consistent(ctx, h, fs) && Judge(ctx, h, fs[0]).Ok?
    ensures Consistent(ctx, Note(ctx, h, fs[0]), fs[1..])
  {
    assert forall i :: 0 <= i < |fs[1..]| ==> fs[1..][i] == fs[i + 1];
  }

  lemma NoteChangesNoDate(ctx: Context, h: History, f0: Finding, f: Finding)
    requires Judge(ctx, h, f0).Ok?
    requires Id(f) == Id(f0) && Id(f) !in h ==> Initial(ctx, f) == Initial(ctx, f0)
    ensures FirstSeen(ctx, Note(ctx, h, f0), f) == FirstSeen(ctx, h, f)
    ensures Judge(ctx, Note(ctx, h, f0), f) == Judge(ctx, h, f)
  {}

  lemma VerdictsFitStep(ctx: Context, h: History, fs: seq<Finding>, vs: seq<Verdict>)
    requires fs != [] && Consistent(ctx, h, fs) && Judge(ctx, h, fs[0]).Ok?
    requires VerdictsFit(ctx, Note(ctx, h, fs[0]), fs[1..], vs)
    ensures VerdictsFit(ctx, h, fs, [Judge(ctx, h, fs[0]).value] + vs)
  {
    var all := [Judge(ctx, h, fs[0]).value] + vs;
    forall i | 0 <= i < |fs| ensures Judge(ctx, h, fs[i]) == Ok(all[i]) {
      NoteChangesNoDate(ctx, h, fs[0], fs[i]);
      if i > 0 { assert fs[1..][i - 1] == fs[i] && vs[i - 1] == all[i]; }
    }
  }

  lemma DatesFitStep(ctx: Context, h: History, fs: seq<Finding>, h2: History)
    requires fs != [] && Consistent(ctx, h, fs) && Judge(ctx, h, fs[0]).Ok?
    requires DatesFit(ctx, Note(ctx, h, fs[0]), fs[1..], h2) && OnlyFound(Note(ctx, h, fs[0]), fs[1..], h2)
    ensures DatesFit(ctx, h, fs, h2)
  {
    forall i | 0 <= i < |fs| ensures Id(fs[i]) in h2 && h2[Id(fs[i])] == FirstSeen(ctx, h, fs[i]) {
      NoteChangesNoDate(ctx, h, fs[0], fs[i]);
      if i == 0 {
        assert Id(fs[0]) in Note(ctx, h, fs[0]);
      } else {
        assert fs[1..][i - 1] == fs[i];
      }
    }
  }

  lemma OnlyFoundStep(ctx: Context, h: History, fs: seq<Finding>, h2: History)
    requires fs != [] && Judge(ctx, h, fs[0]).Ok? && OnlyFound(Note(ctx, h, fs[0]), fs[1..], h2)
    ensures OnlyFound(h, fs, h2)
  {
    var h1, rest := Note(ctx, h, fs[0]), fs[1..];
    forall id | id in h ensures id in h2 && h2[id] == h[id] {
      assert id in h1 && h1[id] == h[id];
    }
    forall id | id in h2 && id !in h ensures exists i :: 0 <= i < |fs| && Id(fs[i]) == id {
      if id in h1 {
        assert Id(fs[0]) == id;
      } else {
        var i :| 0 <= i < |rest| && Id(rest[i]) == id;
        assert Id(fs[i + 1]) == id;
      }
    }
  }

  lemma {:induction false} RunIsPointwise(ctx: Context, h: History, fs: seq<Finding>)
    requires Consistent(ctx, h, fs) && EvaluateAll(ctx, h, fs).Ok?
    ensures var r := EvaluateAll(ctx, h, fs).value; Pointwise(ctx, h, fs, r.0, r.1)
    decreases fs
  {
    if fs != [] {
      var h1, rest := Note(ctx, h, fs[0]), fs[1..];
      NoteKeepsConsistent(ctx, h, fs);
      RunIsPointwise(ctx, h1, rest);
      var r := EvaluateAll(ctx, h1, rest).value;
      VerdictsFitStep(ctx, h, fs, r.0);
      DatesFitStep(ctx, h, fs, r.1);
      OnlyFoundStep(ctx, h, fs, r.1);
    }
  }

  ghost predicate Reordered(fs: seq<Finding>, gs: seq<Finding>) { multiset(fs) == multiset(gs) }

  /** Equal findings get equal verdicts in both runs. */
  ghost predicate SameVerdicts(fs: seq<Finding>, gs: seq<Finding>, vs: seq<Verdict>, ws: seq<Verdict>) {
    && |vs| == |fs| && |ws| == |gs|
    && forall i, j :: 0 <= i < |fs| && 0 <= j < |gs| && fs[i] == gs[j] ==> vs[i] == ws[j]
  }

  lemma ReorderedMembers(fs: seq<Finding>, gs: seq<Finding>)
    requires Reordered(fs, gs)
    ensures SameMembers(fs, gs)
  {
    forall f ensures f in fs <==> f in gs {
      assert f in fs <==> f in multiset(fs);
      assert f in gs <==> f in multiset(gs);
    }
  }

  lemma ConsistentForMembers(ctx: Context, h: History, fs: seq<Finding>, gs: seq<Finding>)
    requires Consistent(ctx, h, fs) && SameMembers(fs, gs)
    ensures Consistent(ctx, h, gs)
  {
    forall i, j | 0 <= i < |gs| && 0 <= j < |gs| && Id(gs[i]) == Id(gs[j]) && Id(gs[i]) !in h
      ensures Initial(ctx, gs[i]) == Initial(ctx, gs[j])
    {
      assert gs[i] in fs && gs[j] in fs;
    }
  }

  lemma PointwiseVerdicts(ctx: Context, h: History, fs: seq<Finding>, gs: seq<Finding>,
                          r: (seq<Verdict>, History), s: (seq<Verdict>, History))
    requires Pointwise(ctx, h, fs, r.0, r.1) && Pointwise(ctx, h, gs, s.0, s.1)
    ensures SameVerdicts(fs, gs, r.0, s.0)
  {
    forall i, j | 0 <= i < |fs| && 0 <= j < |gs| && fs[i] == gs[j] ensures r.0[i] == s.0[j] {
      assert Judge(ctx, h, fs[i]) == Ok(r.0[i]) && Judge(ctx, h, gs[j]) == Ok(s.0[j]);
    }
  }

  lemma ReorderingFails(ctx: Context, h: History, fs: seq<Finding>, gs: seq<Finding>)
    requires SameMembers(fs, gs) && EvaluateAll(ctx, h, fs).Ok?
    ensures EvaluateAll(ctx, h, gs).Ok?
  {
    RunFailsLikeItsFindings(ctx, h, fs);
    RunFailsLikeItsFindings(ctx, h, gs);
    forall i | 0 <= i < |gs| ensures Judge(ctx, h, gs[i]).Ok? {
      assert gs[i] in fs;
    }
  }

  lemma EntryCarriesOver(ctx: Context, h: History, fs: seq<Finding>, gs: seq<Finding>, a: History, b: History,
                         id: Identity)
    requires SameMembers(fs, gs) && OnlyFound(h, fs, a) && OnlyFound(h, gs, b)
    requires DatesFit(ctx, h, fs, a) && DatesFit(ctx, h, gs, b)
    requires id in a
    ensures id in b && b[id] == a[id]
  {
    if id !in h {
      var i :| 0 <= i < |fs| && Id(fs[i]) == id;
      assert fs[i] in gs;
    }
  }

  lemma PointwiseHistory(ctx: Context, h: History, fs: seq<Finding>, gs: seq<Finding>, a: History, b: History)
    requires SameMembers(fs, gs) && OnlyFound(h, fs, a) && OnlyFound(h, gs, b)
    requires DatesFit(ctx, h, fs, a) && DatesFit(ctx, h, gs, b)
    ensures a == b
  {
    forall id | id in a ensures id in b && b[id] == a[id] { EntryCarriesOver(ctx, h, fs, gs, a, b, id); }
    forall id | id in b ensures id in a { EntryCarriesOver(ctx, h, gs, fs, b, a, id); }
  }

  /**
   Reordering the findings reorders the verdicts and leaves the history as it
   was, although the loop updates the history as it goes.
   */
  lemma OrderDoesNotMatter(ctx: Context, h: History, fs: seq<Finding>, gs: seq<Finding>)
    requires Reordered(fs, gs) && Consistent(ctx, h, fs)
    ensures EvaluateAll(ctx, h, fs).Ok? <==> EvaluateAll(ctx, h, gs).Ok?
    ensures EvaluateAll(ctx, h, fs).Ok? ==>
      var (vs, h2) := EvaluateAll(ctx, h, fs).value;
      var (ws, g2) := EvaluateAll(ctx, h, gs).value;
      h2 == g2 && SameVerdicts(fs, gs, vs, ws)
  {
    ReorderedMembers(fs, gs);
    if EvaluateAll(ctx, h, gs).Ok? { ReorderingFails(ctx, h, gs, fs); }
    if EvaluateAll(ctx, h, fs).Ok? {
      ReorderingFails(ctx, h, fs, gs);
      ConsistentForMembers(ctx, h, fs, gs);
      RunIsPointwise(ctx, h, fs);
      RunIsPointwise(ctx, h, gs);
      PointwiseHistory(ctx, h, fs, gs, EvaluateAll(ctx, h, fs).value.1, EvaluateAll(ctx, h, gs).value.1);
      PointwiseVerdicts(ctx, h, fs, gs, EvaluateAll(ctx, h, fs).value, EvaluateAll(ctx, h, gs).value);
    }
  }

  function MovedToFront(fs: seq<Finding>, i: nat): seq<Finding>
    requires i < |fs|
  {
    [fs[i]] + fs[..i] + fs[i + 1..]
  }

  lemma FirstComerDecides(ctx: Context, h: History, fs: seq<Finding>, i: nat)
    requires EvaluateAll(ctx, h, fs).Ok? && i < |fs| && Id(fs[i]) !in h
    ensures Reordered(fs, MovedToFront(fs, i))
    ensures EvaluateAll(ctx, h, MovedToFront(fs, i)).Ok?
    ensures Id(fs[i]) in EvaluateAll(ctx, h, MovedToFront(fs, i)).value.1
    ensures EvaluateAll(ctx, h, MovedToFront(fs, i)).value.1[Id(fs[i])] == Initial(ctx, fs[i])
  {
    var gs := MovedToFront(fs, i);
    assert fs == fs[..i] + [fs[i]] + fs[i + 1..];
    assert gs[1..] == fs[..i] + fs[i + 1..];
    ReorderedMembers(fs, gs);
    ReorderingFails(ctx, h, fs, gs);
    RunExtends(ctx, Note(ctx, h, gs[0]), gs[1..]);
  }

  /** The condition is exact: the history survives every reordering if and only if
      findings of one new identity agree on their date. */
  lemma OrderDoesNotMatterIff(ctx: Context, h: History, fs: seq<Finding>)
    requires EvaluateAll(ctx, h, fs).Ok?
    ensures Consistent(ctx, h, fs) <==>
      forall gs :: Reordered(fs, gs) ==>
        EvaluateAll(ctx, h, gs).Ok? && EvaluateAll(ctx, h, gs).value.1 == EvaluateAll(ctx, h, fs).value.1
  {
    if Consistent(ctx, h, fs) {
      forall gs | Reordered(fs, gs)
        ensures EvaluateAll(ctx, h, gs).Ok? && EvaluateAll(ctx, h, gs).value.1 == EvaluateAll(ctx, h, fs).value.1
      {
        OrderDoesNotMatter(ctx, h, fs, gs);
      }
    } else {
      var i, j :| 0 <= i < |fs| && 0 <= j < |fs| && Id(fs[i]) == Id(fs[j]) && Id(fs[i]) !in h
                  && Initial(ctx, fs[i]) != Initial(ctx, fs[j]);
      FirstComerDecides(ctx, h, fs, i);
      FirstComerDecides(ctx, h, fs, j);
      assert Reordered(fs, MovedToFront(fs, i)) && Reordered(fs, MovedToFront(fs, j));
    }
  }

  lemma ReorderingOfPassing(ctx: Context, fs: seq<Finding>)
    requires EvaluateAll(ctx, map[], fs).Ok?
    ensures forall gs :: Reordered(fs, gs) ==> EvaluateAll(ctx, map[], gs).Ok?
  {
    forall gs | Reordered(fs, gs) ensures EvaluateAll(ctx, map[], gs).Ok? {
      ReorderedMembers(fs, gs);
      ReorderingFails(ctx, map[], fs, gs);
    }
  }

  /** A finding as a scanner's entry with these aliases becomes one. */
  function Reported(target: string, package: string, aliases: seq<string>): Result<Finding, Error> {
    NewFinding(target, package, "1", aliases, "High", ["2"], "osv")
  }

  lemma ReportedFacts(target: string, package: string, aliases: seq<string>)
    requires aliases != []
    ensures var r := Reported(target, package, aliases);
      && r.Ok? && r.value.target == target && r.value.package == package
      && (forall x :: x in r.value.aliases <==> x in aliases)
      && (forall x :: x in aliases && IsCve(x) && (forall y :: y in aliases && IsCve(y) ==> y == x) ==>
            r.value.vulnerability == x)
  {
    SortedSetFacts(aliases);
    VulnerabilityIsLeast(target, package, "1", aliases, "High", ["2"], "osv");
  }

  /** Two findings of one new identity, of which an earlier run saw only an alias of
      the second: the first is introduced and the second is not, so that the order
      decides the date. */
  lemma OrderCanMatter(target: string, package: string, id: string, other: string)
    returns (ctx: Context, fs: seq<Finding>)
    requires IsCve(id) && !IsCve(other)
    ensures |ctx.previous| == 1 && Ok(ctx.previous[0]) == Reported(target, package, [other])
    ensures |fs| == 2 && Ok(fs[0]) == Reported(target, package, [id])
                      && Ok(fs[1]) == Reported(target, package, [id, other])
    ensures EvaluateAll(ctx, map[], fs).Ok? && !Consistent(ctx, map[], fs)
    ensures exists gs :: Reordered(fs, gs) && EvaluateAll(ctx, map[], gs).Ok?
                         && EvaluateAll(ctx, map[], gs).value.1 != EvaluateAll(ctx, map[], fs).value.1
  {
    ReportedFacts(target, package, [other]);
    ReportedFacts(target, package, [id]);
    ReportedFacts(target, package, [id, other]);
    var seen := Reported(target, package, [other]).value;
    var newer, older := Reported(target, package, [id]).value, Reported(target, package, [id, other]).value;
    ctx, fs := Context([seen], {}, [], INITIAL_DAY + 1), [newer, older];
    assert id in [id] && id in [id, other];
    assert other in seen.aliases && other in older.aliases;
    assert !Introduced(ctx, older) && Introduced(ctx, newer);
    assert Judge(ctx, map[], newer).Ok? && Judge(ctx, map[], older).Ok?;
    RunFailsLikeItsFindings(ctx, map[], fs);
    assert Id(fs[0]) == Id(fs[1]) && Initial(ctx, fs[0]) != Initial(ctx, fs[1]);
    OrderDoesNotMatterIff(ctx, map[], fs);
    ReorderingOfPassing(ctx, fs);
  }

  // ---------- daily runs ----------

  /** The saved state after a run: a failed run saves nothing. */
  function Saved(run: Input, state: History): History {
    match Outcome(run, state) case Ok((_, h)) => h case Err(_) => state
  }

  function StateBefore(runs: seq<Input>, k: nat): History
    requires k <= |runs|
  {
    if k == 0 then map[] else Saved(runs[k - 1], StateBefore(runs, k - 1))
  }

  ghost predicate DaysInOrder(runs: seq<Input>) {
    forall i, j :: 0 <= i < j < |runs| ==> runs[i].on <= runs[j].on
  }

  ghost predicate NoneAfter(h: History, day: int) { forall id :: id in h ==> h[id] <= day }

  lemma SavedExtends(run: Input, state: History)
    ensures Extends(state, Saved(run, state), run.on)
  {
    if Outcome(run, state).Ok? { RunExtends(ContextOf(run), state, run.findings); }
  }

  lemma {:induction false} NoFutureDates(runs: seq<Input>, k: nat, day: int)
    requires k <= |runs| && forall i :: 0 <= i < k ==> runs[i].on <= day
    ensures NoneAfter(StateBefore(runs, k), day)
  {
    if k > 0 {
      NoFutureDates(runs, k - 1, day);
      SavedExtends(runs[k - 1], StateBefore(runs, k - 1));
    }
  }

  /** Over runs on non-decreasing days, starting from no history, no run finds a
      first-seen date in the future. */
  lemma RunsNeverMeetTheFuture(runs: seq<Input>, k: nat)
    requires DaysInOrder(runs) && k < |runs|
    ensures Outcome(runs[k], StateBefore(runs, k)) != Err(FutureFirstSeen)
    ensures NoneAfter(StateBefore(runs, k + 1), runs[k].on)
  {
    var run, state := runs[k], StateBefore(runs, k);
    NoFutureDates(runs, k, run.on);
    NoFutureDates(runs, k + 1, run.on);
    if run.kev.Catalogue? && FirstInvalid(run.exceptions, run.on).None? {
      RunFailsLikeItsFindings(ContextOf(run), state, run.findings);
    } else {
      WaiverErrors(run.exceptions, run.on);
    }
  }

  /** A recorded date never changes or vanishes, whatever later runs do. */
  lemma {:induction false} RecordedDatesPersist(runs: seq<Input>, k: nat, m: nat, id: Identity)
    requires k <= m <= |runs| && id in StateBefore(runs, k)
    ensures id in StateBefore(runs, m) && StateBefore(runs, m)[id] == StateBefore(runs, k)[id]
    decreases m
  {
    if k < m {
      RecordedDatesPersist(runs, k, m - 1, id);
      SavedExtends(runs[m - 1], StateBefore(runs, m - 1));
    }
  }

  lemma {:induction false} RunLength(ctx: Context, h: History, fs: seq<Finding>)
    requires EvaluateAll(ctx, h, fs).Ok?
    ensures |EvaluateAll(ctx, h, fs).value.0| == |fs|
    decreases fs
  {
    if fs != [] { RunLength(ctx, Note(ctx, h, fs[0]), fs[1..]); }
  }

  lemma {:induction false} RunUsesTheRecordedDate(ctx: Context, h: History, fs: seq<Finding>, i: nat)
    requires EvaluateAll(ctx, h, fs).Ok? && i < |fs| && Id(fs[i]) in h
    ensures |EvaluateAll(ctx, h, fs).value.0| == |fs|
    ensures Judge(ctx, h, fs[i]) == Ok(EvaluateAll(ctx, h, fs).value.0[i])
    decreases fs
  {
    RunLength(ctx, h, fs);
    RunFailsLikeItsFindings(ctx, h, fs);
    if i > 0 { RunUsesTheRecordedDate(ctx, Note(ctx, h, fs[0]), fs[1..], i - 1); }
  }

  /**
   A fixable High whose identity was recorded as first seen on day `d` has a
   block reason in every later run on or after day `d + 14`, and in any earlier
   one has a reason only if it is known exploited or introduced.
   */
  lemma AgedHighIsBlocked(runs: seq<Input>, k: nat, m: nat, i: nat)
    requires k <= m < |runs| && i < |runs[m].findings|
    requires Id(runs[m].findings[i]) in StateBefore(runs, k)
    requires Outcome(runs[m], StateBefore(runs, m)).Ok?
    requires runs[m].findings[i].severity == "High" && runs[m].findings[i].fixAvailable
    ensures var d := StateBefore(runs, k)[Id(runs[m].findings[i])];
      var vs := Outcome(runs[m], StateBefore(runs, m)).value.0;
      && i < |vs| && vs[i].firstSeen == d
      && (vs[i].reason != NoReason <==> vs[i].kev || vs[i].introduced || runs[m].on >= d + 14)
      && (vs[i].blocked <==> vs[i].reason != NoReason && vs[i].waiver.None?)
  {
    RecordedDatesPersist(runs, k, m, Id(runs[m].findings[i]));
    RunUsesTheRecordedDate(ContextOf(runs[m]), StateBefore(runs, m), runs[m].findings, i);
  }
}
