/**
 The recursive boundary sanitizer (app/redaction.py, lines 121-151) and the
 publisher's last guard (contexts/governance/publisher.py, lines 50-67 and 79-83).
 */
module Sanitizer {
  import opened Collections
  import opened Luhn
  import opened Redaction

  /** A payload. Dictionaries keep their insertion order; keys are strings. */
  datatype Value =
    | Null
    | Bool(b: bool)
    | Number(n: real)
    | Str(s: string)
    | List(items: seq<Value>)
    | Tuple(items: seq<Value>)
    | Dict(entries: seq<Entry>)

  datatype Entry = Entry(key: string, value: Value)

  function WithoutTokenSuffix(name: string): string {
    if |name| >= 6 && name[|name| - 6..] == "_token" then name[..|name| - 6] else name
  }

  function FieldName(field: string): string { WithoutTokenSuffix(Lower(field)) }

  predicate IsServerIdentifier(name: string) {
    name in ["audit_key", "causation_id", "chunk_id", "correlation_id", "entity_id", "event_id",
             "object_key", "operation_id", "request_id", "traceparent"]
  }

  predicate IsSecret(name: string) {
    name in ["answer", "chunk", "chunks", "content", "document", "merchant", "merchant_id", "output",
             "payment_identifier", "prompt", "question", "retrieved", "retrieved_chunks", "source",
             "text", "transaction", "transaction_id"]
  }

  /** `re.sub(r"[^a-z0-9]+", "_", name)`; `gap` says that the last character
      written stands for a run of others. */
  function Collapse(name: string, gap: bool): string {
    if name == [] then []
    else if 'a' <= name[0] <= 'z' || IsDigit(name[0]) then [name[0]] + Collapse(name[1..], false)
    else (if gap then [] else ['_']) + Collapse(name[1..], true)
  }

  function StripUnderscores(s: string): string
    decreases |s|
  {
    if s != [] && s[0] == '_' then StripUnderscores(s[1..])
    else if s != [] && s[|s| - 1] == '_' then StripUnderscores(s[..|s| - 1])
    else s
  }

  function Slug(name: string): string {
    var s := StripUnderscores(Collapse(name, false));
    if s == [] then "value" else s
  }

  datatype FieldKind = ServerIdentifier | Secret | Ordinary

  function KindOfField(field: string): FieldKind {
    if IsServerIdentifier(FieldName(field)) then ServerIdentifier
    else if IsSecret(FieldName(field)) then Secret
    else Ordinary
  }

  /** What happens to a string under a field of this kind and normalized name. */
  function TextRule(s: string, kind: FieldKind, name: string, env: Env): string {
    if s == [] || IsToken(s) then s
    else
      match kind
      case ServerIdentifier => s
      case Secret => TokenFor(Slug(name), s, env)
      case Ordinary => RedactText(s, env)
  }

  function SanitizeText(s: string, field: string, env: Env): string {
    TextRule(s, KindOfField(field), FieldName(field), env)
  }

  function Sanitize(v: Value, field: string, env: Env): Value
    decreases v
  {
    match v
    case Dict(entries) =>
      Dict(seq(|entries|, i requires 0 <= i < |entries| =>
        Entry(entries[i].key, Sanitize(entries[i].value, entries[i].key, env))))
    case List(items) => List(seq(|items|, i requires 0 <= i < |items| => Sanitize(items[i], field, env)))
    case Tuple(items) => List(seq(|items|, i requires 0 <= i < |items| => Sanitize(items[i], field, env)))
    case Str(s) => Str(SanitizeText(s, field, env))
    case _ => v
  }

  // ---------- shape and leaves ----------

  /** A position in a value: list indices and dictionary entries by number. */
  type Path = seq<nat>

  function Children(v: Value): seq<Value> {
    match v
    case Dict(entries) => seq(|entries|, i requires 0 <= i < |entries| => entries[i].value)
    case List(items) => items
    case Tuple(items) => items
    case _ => []
  }

  predicate Has(v: Value, p: Path)
    decreases p
  {
    p == [] || (p[0] < |Children(v)| && Has(Children(v)[p[0]], p[1..]))
  }

  function At(v: Value, p: Path): Value
    requires Has(v, p)
    decreases p
  {
    if p == [] then v else At(Children(v)[p[0]], p[1..])
  }

  /** The innermost dictionary key on the way to a position, else the given name. */
  function FieldAt(v: Value, p: Path, field: string): string
    requires Has(v, p)
    decreases p
  {
    if p == [] then field
    else FieldAt(Children(v)[p[0]], p[1..], if v.Dict? then v.entries[p[0]].key else field)
  }

  /** The same kind of node, with the same keys or the same number of items; a
      tuple becomes a list. */
  ghost predicate SameNode(v: Value, w: Value) {
    match v
    case Dict(entries) =>
      w.Dict? && |w.entries| == |entries| && forall i :: 0 <= i < |entries| ==> w.entries[i].key == entries[i].key
    case List(items) => w.List? && |w.items| == |items|
    case Tuple(items) => w.List? && |w.items| == |items|
    case Str(_) => w.Str?
    case _ => w == v
  }

  /**
   Position by position, the sanitized value has the same positions and nodes,
   and each string became what its innermost dictionary key makes of it.
   */
  lemma {:induction false} SanitizedPosition(v: Value, field: string, env: Env, p: Path)
    ensures Has(Sanitize(v, field, env), p) <==> Has(v, p)
    ensures Has(v, p) ==>
      && SameNode(At(v, p), At(Sanitize(v, field, env), p))
      && (At(v, p).Str? ==>
            At(Sanitize(v, field, env), p) == Str(SanitizeText(At(v, p).s, FieldAt(v, p, field), env)))
    decreases p
  {
    if p != [] && p[0] < |Children(v)| {
      SanitizedPosition(Children(v)[p[0]], if v.Dict? then v.entries[p[0]].key else field, env, p[1..]);
    }
  }

  lemma SuffixIsDropped(name: string)
    requires IsServerIdentifier(name)
    ensures WithoutTokenSuffix(name + "_token") == name && WithoutTokenSuffix(name) == name
  {
    var s := name + "_token";
    assert s[|s| - 6..] == "_token" && s[..|s| - 6] == name;
    assert name[|name| - 1] != 'n';
  }

  /** A string under a server identifier, in any letter case and with or without
      the suffix, is kept verbatim at any depth. */
  lemma ServerIdentifiersAreKept(v: Value, field: string, env: Env, p: Path, name: string)
    requires Has(v, p) && At(v, p).Str? && IsServerIdentifier(name)
    requires Lower(FieldAt(v, p, field)) == name || Lower(FieldAt(v, p, field)) == name + "_token"
    ensures Has(Sanitize(v, field, env), p) && At(Sanitize(v, field, env), p) == At(v, p)
  {
    SanitizedPosition(v, field, env, p);
    SuffixIsDropped(name);
  }

  // ---------- secret fields ----------

  lemma {:induction false} CollapseKeeps(name: string, gap: bool)
    requires forall i :: 0 <= i < |name| ==> 'a' <= name[i] <= 'z' || name[i] == '_'
    requires forall i :: 0 <= i < |name| - 1 ==> name[i] != '_' || name[i + 1] != '_'
    requires gap && name != [] ==> name[0] != '_'
    ensures Collapse(name, gap) == name
    decreases name
  {
    if name != [] {
      var rest := name[1..];
      assert name == [name[0]] + rest;
      assert forall i :: 0 <= i < |rest| ==> rest[i] == name[i + 1];
      CollapseKeeps(rest, name[0] == '_');
    }
  }

  /** Words of small letters, joined by single underscores, are their own token kind. */
  lemma SlugKeeps(name: string)
    requires name != [] && name[0] != '_' && name[|name| - 1] != '_'
    requires forall i :: 0 <= i < |name| ==> 'a' <= name[i] <= 'z' || name[i] == '_'
    requires forall i :: 0 <= i < |name| - 1 ==> name[i] != '_' || name[i + 1] != '_'
    ensures Slug(name) == name
  {
    CollapseKeeps(name, false);
  }

  const SECRETS := ["answer", "chunk", "chunks", "content", "document", "merchant", "merchant_id", "output",
                    "payment_identifier", "prompt", "question", "retrieved", "retrieved_chunks", "source",
                    "text", "transaction", "transaction_id"]

  lemma SecretLetters(name: string, c: char)
    requires name in SECRETS && c in name
    ensures 'a' <= c <= 'z' || c == '_'
  {}

  lemma SecretUnderscores(name: string, i: nat)
    requires name in SECRETS && i + 1 < |name|
    ensures name[i] != '_' || name[i + 1] != '_'
  {}

  lemma SecretEnds(name: string)
    requires name in SECRETS
    ensures |name| >= 4 && name[0] != '_' && name[|name| - 1] != '_'
    ensures name[|name| - 2] != 'e' || name[|name| - 1] != 'n'
  {}

  lemma SecretIsNoIdentifier(name: string)
    requires name in SECRETS
    ensures IsSecret(name) && !IsServerIdentifier(name)
  {}

  lemma SecretKeepsText(name: string)
    requires name in SECRETS
    ensures name !in ["email", "phone", "card", "ssn"]
  {}

  lemma SecretIsSlug(name: string)
    requires name in SECRETS
    ensures Slug(name) == name && Lower(name) == name
  {
    SecretEnds(name);
    forall i | 0 <= i < |name| ensures 'a' <= name[i] <= 'z' || name[i] == '_' { SecretLetters(name, name[i]); }
    forall i | 0 <= i < |name| - 1 ensures name[i] != '_' || name[i + 1] != '_' { SecretUnderscores(name, i); }
    SlugKeeps(name);
  }

  lemma SecretSuffix(name: string)
    requires name in SECRETS
    ensures WithoutTokenSuffix(name + "_token") == name && WithoutTokenSuffix(name) == name
  {
    SecretEnds(name);
    var s, n := name + "_token", |name|;
    assert s[|s| - 6..] == "_token" && s[..|s| - 6] == name;
    assert n >= 6 ==> name[n - 6..][4] == name[n - 2] && name[n - 6..][5] == name[n - 1];
  }

  /** The field of one of these names, in any letter case and with or without the suffix. */
  predicate IsFieldOf(field: string, name: string) { Lower(field) == name || Lower(field) == name + "_token" }

  lemma SecretField(field: string, name: string)
    requires name in SECRETS && IsFieldOf(field, name)
    ensures KindOfField(field).Secret? && FieldName(field) == name && Slug(name) == name
  {
    SecretSuffix(name);
    SecretIsNoIdentifier(name);
    SecretIsSlug(name);
  }

  /** At any depth, a string under a secret name becomes the token of that name, unless
      it is empty or a token. */
  lemma SecretFieldsYieldTokens(v: Value, field: string, env: Env, p: Path, name: string)
    requires Has(v, p) && At(v, p).Str? && name in SECRETS && IsFieldOf(FieldAt(v, p, field), name)
    ensures Has(Sanitize(v, field, env), p)
    ensures var s := At(v, p).s;
      At(Sanitize(v, field, env), p) == Str(if s == [] || IsToken(s) then s else TokenFor(name, s, env))
  {
    SanitizedPosition(v, field, env, p);
    SecretField(FieldAt(v, p, field), name);
  }

  /** Two texts under a secret name get the same token exactly when they agree up to
      outer spaces or their messages collide. */
  lemma SecretTokens(name: string, field: string, a: string, b: string, env: Env)
    requires name in SECRETS && IsFieldOf(field, name)
    requires a != [] && b != [] && !IsToken(a) && !IsToken(b)
    ensures SanitizeText(a, field, env) == SanitizeText(b, field, env) <==>
              Strip(a) == Strip(b) || Collide(name, a, b, env)
  {
    SecretField(field, name);
    SecretIsSlug(name);
    SecretKeepsText(name);
    PlainKindTokens(name, a, b, env);
  }

  const IDENTIFIERS := ["audit_key", "causation_id", "chunk_id", "correlation_id", "entity_id", "event_id",
                        "object_key", "operation_id", "request_id", "traceparent"]

  lemma ListedAreKinds(name: string)
    ensures IsSecret(name) <==> name in SECRETS
    ensures IsServerIdentifier(name) <==> name in IDENTIFIERS
  {}

  lemma NameOfField(field: string)
    ensures IsFieldOf(field, FieldName(field))
  {
    var l := Lower(field);
    if |l| >= 6 && l[|l| - 6..] == "_token" { assert l == l[..|l| - 6] + "_token"; }
  }

  /** The kind of a field, by the two lists of names. */
  lemma KindIs(field: string)
    ensures KindOfField(field).Secret? <==> exists name :: name in SECRETS && IsFieldOf(field, name)
    ensures KindOfField(field).ServerIdentifier? <==> exists name :: name in IDENTIFIERS && IsFieldOf(field, name)
  {
    NameOfField(field);
    ListedAreKinds(FieldName(field));
    if name :| name in SECRETS && IsFieldOf(field, name) { SecretField(field, name); }
    if name :| name in IDENTIFIERS && IsFieldOf(field, name) {
      ListedAreKinds(name);
      SuffixIsDropped(name);
    }
  }

  lemma EmptyIsKept(env: Env)
    requires PatternSound(env)
    ensures Unmatched([], env) && RedactText([], env) == []
  {
    WordyIsUnmatched([], env);
    KeptIff([], env);
  }

  /** At any depth, a string under any other name is redacted, unless it is a token. */
  lemma OtherFieldsAreRedacted(v: Value, field: string, env: Env, p: Path)
    requires PatternSound(env) && Has(v, p) && At(v, p).Str?
    requires forall name :: name in SECRETS || name in IDENTIFIERS ==> !IsFieldOf(FieldAt(v, p, field), name)
    ensures Has(Sanitize(v, field, env), p)
    ensures var s := At(v, p).s;
      At(Sanitize(v, field, env), p) == Str(if IsToken(s) then s else RedactText(s, env))
  {
    SanitizedPosition(v, field, env, p);
    KindIs(FieldAt(v, p, field));
    EmptyIsKept(env);
  }

  // ---------- fixed points ----------

  lemma {:induction false} CollapseChars(name: string, gap: bool)
    ensures forall i :: 0 <= i < |Collapse(name, gap)| ==>
      var c := Collapse(name, gap)[i]; 'a' <= c <= 'z' || IsDigit(c) || c == '_'
    decreases name
  {
    if name != [] {
      CollapseChars(name[1..], false);
      CollapseChars(name[1..], true);
    }
  }

  lemma {:induction false} StripUnderscoresChars(s: string)
    requires forall i :: 0 <= i < |s| ==> 'a' <= s[i] <= 'z' || IsDigit(s[i]) || s[i] == '_'
    ensures forall i :: 0 <= i < |StripUnderscores(s)| ==>
      var c := StripUnderscores(s)[i]; 'a' <= c <= 'z' || IsDigit(c) || c == '_'
    decreases |s|
  {
    if s != [] && s[0] == '_' {
      StripUnderscoresChars(s[1..]);
    } else if s != [] && s[|s| - 1] == '_' {
      StripUnderscoresChars(s[..|s| - 1]);
    }
  }

  lemma SlugIsSlugged(name: string)
    ensures Slugged(Slug(name))
  {
    CollapseChars(name, false);
    StripUnderscoresChars(Collapse(name, false));
  }

  lemma SecretRuleGivesToken(s: string, name: string, env: Env)
    requires HexDigest(env) && s != []
    ensures IsToken(TextRule(s, Secret, name, env))
  {
    SlugIsSlugged(name);
    TokenIsToken(Slug(name), s, env);
  }

  /** A secret field always yields a token, and a token is left alone for ever. */
  lemma SecretBecomesToken(s: string, field: string, env: Env)
    requires HexDigest(env) && s != [] && KindOfField(field).Secret?
    ensures IsToken(SanitizeText(s, field, env))
    ensures SanitizeText(SanitizeText(s, field, env), field, env) == SanitizeText(s, field, env)
  {
    SecretRuleGivesToken(s, FieldName(field), env);
  }

  /** The text or its redaction is one token, or the scan finds nothing but time stamps
      in the redacted text. */
  ghost predicate Settled(s: string, env: Env) {
    IsToken(s) || IsToken(RedactText(s, env)) || Unmatched(RedactText(s, env), env)
  }

  lemma TextIdempotentIff(s: string, field: string, env: Env)
    requires HexDigest(env) && PatternSound(env)
    ensures SanitizeText(SanitizeText(s, field, env), field, env) == SanitizeText(s, field, env)
       <==> !KindOfField(field).Ordinary? || Settled(s, env)
  {
    if s != [] && KindOfField(field).Secret? {
      SecretBecomesToken(s, field, env);
    } else {
      EmptyIsKept(env);
      KeptIff(RedactText(s, env), env);
    }
  }

  /** A text without a match, and one that is a match as a whole, are settled. */
  lemma SimpleIsSettled(s: string, env: Env)
    requires HexDigest(env) && PatternSound(env) && (Unmatched(s, env) || WholeMatch(s, env))
    ensures Settled(s, env)
  {
    if Unmatched(s, env) { KeptIff(s, env); } else { WholeMatchBecomesToken(s, env); }
  }

  /** Sanitizing again changes nothing below this value. */
  ghost predicate AllSettled(v: Value, field: string, env: Env)
    decreases v
  {
    match v
    case Dict(entries) => forall i :: 0 <= i < |entries| ==> AllSettled(entries[i].value, entries[i].key, env)
    case List(items) => forall i :: 0 <= i < |items| ==> AllSettled(items[i], field, env)
    case Tuple(items) => forall i :: 0 <= i < |items| ==> AllSettled(items[i], field, env)
    case Str(s) => !KindOfField(field).Ordinary? || Settled(s, env)
    case _ => true
  }

  lemma EntriesEqualIff(a: seq<Entry>, b: seq<Entry>)
    requires |a| == |b| && forall i :: 0 <= i < |a| ==> a[i].key == b[i].key
    ensures a == b <==> forall i :: 0 <= i < |a| ==> a[i].value == b[i].value
  {
    if forall i :: 0 <= i < |a| ==> a[i].value == b[i].value {
      forall i | 0 <= i < |a| ensures a[i] == b[i] { assert a[i].value == b[i].value; }
    }
  }

  /**
   A value sanitizes to a fixed point exactly when one pass of pattern redaction
   settles every string under an ordinary field name.
   */
  lemma {:induction false} IdempotentIff(v: Value, field: string, env: Env)
    requires HexDigest(env) && PatternSound(env)
    ensures Sanitize(Sanitize(v, field, env), field, env) == Sanitize(v, field, env) <==> AllSettled(v, field, env)
    decreases v
  {
    var w := Sanitize(v, field, env);
    match v
    case Dict(entries) =>
      forall i | 0 <= i < |entries|
        ensures Sanitize(w.entries[i].value, entries[i].key, env) == w.entries[i].value
           <==> AllSettled(entries[i].value, entries[i].key, env)
      {
        IdempotentIff(entries[i].value, entries[i].key, env);
      }
      EntriesEqualIff(Sanitize(w, field, env).entries, w.entries);
    case List(items) =>
      ItemsIdempotentIff(items, field, env);
    case Tuple(items) =>
      ItemsIdempotentIff(items, field, env);
    case Str(s) => TextIdempotentIff(s, field, env);
    case _ =>
  }

  lemma {:induction false} ItemsIdempotentIff(items: seq<Value>, field: string, env: Env)
    requires HexDigest(env) && PatternSound(env)
    ensures var w := Sanitize(List(items), field, env);
      Sanitize(w, field, env) == w <==> forall i :: 0 <= i < |items| ==> AllSettled(items[i], field, env)
    decreases items
  {
    var w := Sanitize(List(items), field, env);
    var again := Sanitize(w, field, env);
    forall i | 0 <= i < |items|
      ensures again.items[i] == w.items[i] <==> AllSettled(items[i], field, env)
    {
      IdempotentIff(items[i], field, env);
    }
    assert again == w <==> forall i :: 0 <= i < |items| ==> again.items[i] == w.items[i];
  }

  /** There is a string at this position, under an ordinary field name. */
  predicate OrdinaryText(v: Value, field: string, p: Path) {
    Has(v, p) && At(v, p).Str? && KindOfField(FieldAt(v, p, field)).Ordinary?
  }

  ghost predicate SettledAt(v: Value, field: string, env: Env, p: Path) {
    OrdinaryText(v, field, p) ==> Settled(At(v, p).s, env)
  }

  /** The field name that the children of a value are under. */
  function ChildField(v: Value, field: string, i: nat): string
    requires i < |Children(v)|
  {
    if v.Dict? then v.entries[i].key else field
  }

  lemma SettledAtChild(v: Value, field: string, env: Env, i: nat, p: Path)
    requires i < |Children(v)|
    ensures SettledAt(v, field, env, [i] + p) <==> SettledAt(Children(v)[i], ChildField(v, field, i), env, p)
  {
    assert ([i] + p)[1..] == p;
  }

  /** Every position in a value is settled. */
  ghost predicate PositionsSettled(v: Value, field: string, env: Env) {
    forall p: Path :: SettledAt(v, field, env, p)
  }

  lemma PositionsOfChild(v: Value, field: string, env: Env, i: nat)
    requires PositionsSettled(v, field, env) && i < |Children(v)|
    ensures PositionsSettled(Children(v)[i], ChildField(v, field, i), env)
  {
    forall p: Path ensures SettledAt(Children(v)[i], ChildField(v, field, i), env, p) {
      SettledAtChild(v, field, env, i, p);
      assert SettledAt(v, field, env, [i] + p);
    }
  }

  lemma PositionsFromChildren(v: Value, field: string, env: Env)
    requires SettledAt(v, field, env, [])
    requires forall i :: 0 <= i < |Children(v)| ==> PositionsSettled(Children(v)[i], ChildField(v, field, i), env)
    ensures PositionsSettled(v, field, env)
  {
    forall p: Path ensures SettledAt(v, field, env, p) {
      if p != [] && p[0] < |Children(v)| {
        SettledAtChild(v, field, env, p[0], p[1..]);
        assert p == [p[0]] + p[1..];
        assert SettledAt(Children(v)[p[0]], ChildField(v, field, p[0]), env, p[1..]);
      }
    }
  }

  lemma AllSettledByChild(v: Value, field: string, env: Env)
    ensures AllSettled(v, field, env) <==>
      && SettledAt(v, field, env, [])
      && forall i :: 0 <= i < |Children(v)| ==> AllSettled(Children(v)[i], ChildField(v, field, i), env)
  {
    var children := Children(v);
    match v
    case Dict(entries) =>
      assert forall i :: 0 <= i < |children| ==>
        children[i] == entries[i].value && ChildField(v, field, i) == entries[i].key;
    case List(_) =>
    case Tuple(_) =>
    case _ =>
  }

  /** A value is settled exactly when the string at every position is. */
  lemma {:induction false} SettledByPosition(v: Value, field: string, env: Env)
    ensures AllSettled(v, field, env) <==> PositionsSettled(v, field, env)
    decreases v
  {
    AllSettledByChild(v, field, env);
    forall i | 0 <= i < |Children(v)|
      ensures AllSettled(Children(v)[i], ChildField(v, field, i), env)
         <==> PositionsSettled(Children(v)[i], ChildField(v, field, i), env)
      ensures PositionsSettled(v, field, env) ==> AllSettled(Children(v)[i], ChildField(v, field, i), env)
    {
      SettledByPosition(Children(v)[i], ChildField(v, field, i), env);
      if PositionsSettled(v, field, env) { PositionsOfChild(v, field, env, i); }
    }
    if AllSettled(v, field, env) { PositionsFromChildren(v, field, env); }
  }

  // ---------- the guard of the publisher ----------

  /** An event as the guard sees it: not every object can be serialized. */
  datatype Event = Unserializable | Domain(payload: Value)

  datatype Header = Header(name: string, value: string)

  predicate BoundarySafe(e: Event, headers: seq<Header>, env: Env) {
    && e.Domain?
    && Sanitize(e.payload, "", env) == e.payload
    && forall i :: 0 <= i < |headers| ==> SanitizeText(headers[i].value, headers[i].name, env) == headers[i].value
  }

  /** A sanitized payload passes the guard exactly when it is settled. */
  lemma GuardAcceptsSanitizedIff(v: Value, env: Env)
    requires HexDigest(env) && PatternSound(env)
    ensures BoundarySafe(Domain(Sanitize(v, "", env)), [], env) <==> AllSettled(v, "", env)
  {
    IdempotentIff(v, "", env);
  }

  /** In particular, if under ordinary field names there are only texts in which the scan
      finds nothing but time stamps, and texts that are one match as a whole. */
  lemma GuardAcceptsSimplePayloads(v: Value, env: Env)
    requires HexDigest(env) && PatternSound(env)
    requires forall p: Path :: OrdinaryText(v, "", p) ==> Unmatched(At(v, p).s, env) || WholeMatch(At(v, p).s, env)
    ensures BoundarySafe(Domain(Sanitize(v, "", env)), [], env)
  {
    forall p: Path ensures SettledAt(v, "", env, p) {
      if OrdinaryText(v, "", p) { SimpleIsSettled(At(v, p).s, env); }
    }
    SettledByPosition(v, "", env);
    GuardAcceptsSanitizedIff(v, env);
  }

  /** What the guard lets pass under this name: any identifier, tokens, and, unless the
      name is secret, texts in which the scan finds nothing but time stamps. */
  ghost predicate CleanText(s: string, field: string, env: Env) {
    match KindOfField(field)
    case ServerIdentifier => true
    case Secret => s == [] || IsToken(s)
    case Ordinary => IsToken(s) || Unmatched(s, env)
  }

  lemma CleanTextIff(s: string, field: string, env: Env)
    requires HexDigest(env) && PatternSound(env)
    ensures SanitizeText(s, field, env) == s <==> CleanText(s, field, env)
  {
    EmptyIsKept(env);
    KeptIff(s, env);
    if s != [] && KindOfField(field).Secret? { SecretBecomesToken(s, field, env); }
  }

  /** The node at this position is clean: no tuple, and if a string, a clean one. */
  ghost predicate CleanAt(v: Value, field: string, env: Env, p: Path) {
    Has(v, p) ==>
      && !At(v, p).Tuple?
      && (At(v, p).Str? ==> CleanText(At(v, p).s, FieldAt(v, p, field), env))
  }

  ghost predicate PositionsClean(v: Value, field: string, env: Env) { forall p: Path :: CleanAt(v, field, env, p) }

  lemma CleanAtChild(v: Value, field: string, env: Env, i: nat, p: Path)
    requires i < |Children(v)|
    ensures CleanAt(v, field, env, [i] + p) <==> CleanAt(Children(v)[i], ChildField(v, field, i), env, p)
  {
    assert ([i] + p)[1..] == p;
  }

  lemma ChildIsClean(v: Value, field: string, env: Env, i: nat)
    requires PositionsClean(v, field, env) && i < |Children(v)|
    ensures PositionsClean(Children(v)[i], ChildField(v, field, i), env)
  {
    forall p: Path ensures CleanAt(Children(v)[i], ChildField(v, field, i), env, p) {
      CleanAtChild(v, field, env, i, p);
      assert CleanAt(v, field, env, [i] + p);
    }
  }

  lemma CleanFromChildren(v: Value, field: string, env: Env)
    requires CleanAt(v, field, env, [])
    requires forall i :: 0 <= i < |Children(v)| ==> PositionsClean(Children(v)[i], ChildField(v, field, i), env)
    ensures PositionsClean(v, field, env)
  {
    forall p: Path ensures CleanAt(v, field, env, p) {
      if p != [] && p[0] < |Children(v)| {
        CleanAtChild(v, field, env, p[0], p[1..]);
        assert p == [p[0]] + p[1..];
        assert CleanAt(Children(v)[p[0]], ChildField(v, field, p[0]), env, p[1..]);
      }
    }
  }

  /** A value is a fixed point exactly if its own node and its children are. */
  lemma StaysByChild(v: Value, field: string, env: Env)
    ensures Sanitize(v, field, env) == v <==>
      && !v.Tuple? && (v.Str? ==> SanitizeText(v.s, field, env) == v.s)
      && forall i :: 0 <= i < |Children(v)| ==>
           Sanitize(Children(v)[i], ChildField(v, field, i), env) == Children(v)[i]
  {
    match v
    case Dict(entries) =>
      var w := Sanitize(v, field, env);
      EntriesEqualIff(w.entries, entries);
      forall i | 0 <= i < |entries|
        ensures w.entries[i].value == entries[i].value
           <==> Sanitize(Children(v)[i], ChildField(v, field, i), env) == Children(v)[i]
      {
        assert Children(v)[i] == entries[i].value && ChildField(v, field, i) == entries[i].key;
      }
      assert (forall i :: 0 <= i < |entries| ==> w.entries[i].value == entries[i].value) <==>
             (forall i :: 0 <= i < |Children(v)| ==>
                Sanitize(Children(v)[i], ChildField(v, field, i), env) == Children(v)[i]);
    case List(items) =>
      var w := Sanitize(v, field, env);
      assert Children(v) == items && |w.items| == |items|;
      assert forall i :: 0 <= i < |items| ==>
        w.items[i] == Sanitize(Children(v)[i], ChildField(v, field, i), env);
      assert w.items == items <==> forall i :: 0 <= i < |items| ==> w.items[i] == items[i];
    case Tuple(_) =>
    case _ =>
  }

  lemma {:induction false} StaysIff(v: Value, field: string, env: Env)
    requires HexDigest(env) && PatternSound(env)
    ensures Sanitize(v, field, env) == v <==> PositionsClean(v, field, env)
    decreases v
  {
    StaysByChild(v, field, env);
    if v.Str? { CleanTextIff(v.s, field, env); }
    forall i | 0 <= i < |Children(v)|
      ensures Sanitize(Children(v)[i], ChildField(v, field, i), env) == Children(v)[i]
         <==> PositionsClean(Children(v)[i], ChildField(v, field, i), env)
      ensures PositionsClean(v, field, env) ==> PositionsClean(Children(v)[i], ChildField(v, field, i), env)
    {
      StaysIff(Children(v)[i], ChildField(v, field, i), env);
      if PositionsClean(v, field, env) { ChildIsClean(v, field, env, i); }
    }
    assert CleanAt(v, field, env, []) <==> !v.Tuple? && (v.Str? ==> CleanText(v.s, field, env));
    if Sanitize(v, field, env) == v { CleanFromChildren(v, field, env); }
  }

  /**
   What the guard accepts: an event that can be serialized, in whose payload, at any
   depth, there is no tuple and every string is clean under its innermost key, and whose
   headers are clean under their names.
   */
  lemma GuardAcceptsIff(e: Event, headers: seq<Header>, env: Env)
    requires HexDigest(env) && PatternSound(env)
    ensures BoundarySafe(e, headers, env) <==>
      && e.Domain? && PositionsClean(e.payload, "", env)
      && forall i :: 0 <= i < |headers| ==> CleanText(headers[i].value, headers[i].name, env)
  {
    if e.Domain? { StaysIff(e.payload, "", env); }
    forall i | 0 <= i < |headers|
      ensures SanitizeText(headers[i].value, headers[i].name, env) == headers[i].value
         <==> CleanText(headers[i].value, headers[i].name, env)
    {
      CleanTextIff(headers[i].value, headers[i].name, env);
    }
  }

  /** Nothing that passes the guard shows a secret field in clear. */
  lemma NoSecretPassesInClear(v: Value, headers: seq<Header>, env: Env, p: Path)
    requires HexDigest(env) && BoundarySafe(Domain(v), headers, env)
    requires Has(v, p) && At(v, p).Str? && At(v, p).s != []
    requires KindOfField(FieldAt(v, p, "")).Secret?
    ensures IsToken(At(v, p).s)
  {
    SanitizedPosition(v, "", env, p);
    SecretBecomesToken(At(v, p).s, FieldAt(v, p, ""), env);
  }

  // ---------- the bounded record of publications ----------

  /** The `published` deque of both publishers. */
  class PublicationLog {
    const limit: nat
    const env: Env
    var published: seq<(Event, seq<Header>)>
    ghost var accepted: seq<(Event, seq<Header>)>

    ghost predicate Valid() reads this { published == Last(accepted, limit) }

    constructor (configured: int, env: Env)
      ensures Valid() && accepted == [] && this.env == env
      ensures limit == if configured >= 1 then configured else 1
    {
      limit := if configured >= 1 then configured else 1;
      this.env := env;
      published, accepted := [], [];
    }

    /** Raises, and records nothing, exactly when the guard refuses. */
    method Publish(e: Event, headers: seq<Header>) returns (raised: bool)
      requires Valid()
      modifies this
      ensures Valid()
      ensures raised <==> !BoundarySafe(e, headers, env)
      ensures accepted == if raised then old(accepted) else old(accepted) + [(e, headers)]
    {
      if !BoundarySafe(e, headers, env) { return true; }
      LastOfLast(accepted, [(e, headers)], limit);
      published := published + [(e, headers)];
      if |published| > limit { published := published[1..]; }
      accepted := accepted + [(e, headers)];
      raised := false;
    }
  }
}
