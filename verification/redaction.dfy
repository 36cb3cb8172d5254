/**
 Tokens and the boundary sanitizer (app/redaction.py, lines 32-67 and 99-174).

 `Env` holds what is foreign to this file: the keyed digest, cut to 32 hex
 digits, and the pattern scan of a text. Nothing is assumed about either unless a
 lemma says so. Letters, digits and white space are the ASCII ones.
 */
module Redaction {
  import opened Collections
  import opened Luhn

  /** What the pattern scan yields: text between matches, and matches with the name
      of the group that matched. */
  datatype Segment = Plain(text: string) | Match(kind: string, text: string)

  datatype Env = Env(salt: string, digest: (string, string) -> string, scan: string -> seq<Segment>)

  // ---------- characters ----------

  function LowerChar(c: char): char { if 'A' <= c <= 'Z' then c - 'A' + 'a' else c }

  function UpperChar(c: char): char { if 'a' <= c <= 'z' then c - 'a' + 'A' else c }

  function Lower(s: string): string { Map(LowerChar, s) }

  function Upper(s: string): string { Map(UpperChar, s) }

  predicate IsSpace(c: char) { c == ' ' || '\t' <= c <= '\r' || '\U{1C}' <= c <= '\U{1F}' }

  function StripLeft(s: string): string {
    if s != [] && IsSpace(s[0]) then StripLeft(s[1..]) else s
  }

  function StripRight(s: string): string {
    if s != [] && IsSpace(s[|s| - 1]) then StripRight(s[..|s| - 1]) else s
  }

  function Strip(s: string): string { StripRight(StripLeft(s)) }

  /** The digit characters of a text, joined. */
  function DigitText(s: string): string { Filter(IsDigit, s) }

  predicate IsHex(c: char) { IsDigit(c) || 'a' <= c <= 'f' }

  predicate IsTokenKind(c: char) { 'A' <= c <= 'Z' || IsDigit(c) || c == '_' }

  // ---------- tokens ----------

  function Canonicalize(kind: string, value: string): string {
    var v := Strip(value);
    if kind == "email" then Lower(v)
    else if kind == "phone" || kind == "card" || kind == "ssn" then DigitText(v)
    else v
  }

  function Message(kind: string, value: string): string {
    "V1:" + Lower(kind) + ":" + Canonicalize(Lower(kind), value)
  }

  function TokenFor(kind: string, value: string, env: Env): string {
    "<PII_" + Upper(kind) + "_V1_" + env.digest(env.salt, Message(kind, value)) + ">"
  }

  /** `^<PII_[A-Z0-9_]+_V1_[0-9a-f]{32}>$`: the digest part has a fixed length, so
      there is only one way to read a text as a token. */
  predicate IsToken(s: string) {
    && |s| >= 43
    && s[..5] == "<PII_"
    && (forall i :: 5 <= i < |s| - 37 ==> IsTokenKind(s[i]))
    && s[|s| - 37..|s| - 33] == "_V1_"
    && (forall i :: |s| - 33 <= i < |s| - 1 ==> IsHex(s[i]))
    && s[|s| - 1] == '>'
  }

  /** The digest is 32 lower-case hex digits. */
  ghost predicate HexDigest(env: Env) {
    forall m :: |env.digest(env.salt, m)| == 32
                && forall i :: 0 <= i < 32 ==> IsHex(env.digest(env.salt, m)[i])
  }

  ghost predicate Slugged(kind: string) {
    kind != [] && forall i :: 0 <= i < |kind| ==> 'a' <= kind[i] <= 'z' || IsDigit(kind[i]) || kind[i] == '_'
  }

  lemma TokenParts(k: string, d: string)
    requires k != [] && |d| == 32
    requires forall i :: 0 <= i < |k| ==> IsTokenKind(k[i])
    requires forall i :: 0 <= i < |d| ==> IsHex(d[i])
    ensures IsToken("<PII_" + k + "_V1_" + d + ">")
  {
    var s := "<PII_" + k + "_V1_" + d + ">";
    forall i | 5 <= i < |s| - 37 ensures IsTokenKind(s[i]) { assert s[i] == k[i - 5]; }
    forall i | |s| - 33 <= i < |s| - 1 ensures IsHex(s[i]) { assert s[i] == d[i - (|s| - 33)]; }
    assert s[|s| - 37..|s| - 33] == "_V1_";
  }

  lemma TokenIsToken(kind: string, value: string, env: Env)
    requires HexDigest(env) && Slugged(kind)
    ensures IsToken(TokenFor(kind, value, env))
  {
    var k, d := Upper(kind), env.digest(env.salt, Message(kind, value));
    assert |d| == 32 && forall i :: 0 <= i < 32 ==> IsHex(d[i]);
    assert forall i :: 0 <= i < |k| ==> k[i] == UpperChar(kind[i]) && IsTokenKind(k[i]);
    TokenParts(k, d);
  }

  /** A kind of capital letters, digits and underscores, and 32 hex digits. */
  ghost predicate HasForm(s: string, kind: string, digest: string) {
    && s == "<PII_" + kind + "_V1_" + digest + ">"
    && kind != [] && (forall i :: 0 <= i < |kind| ==> IsTokenKind(kind[i]))
    && |digest| == 32 && (forall i :: 0 <= i < |digest| ==> IsHex(digest[i]))
  }

  lemma FivePieces(s: string, i: nat, j: nat, k: nat, l: nat)
    requires i <= j <= k <= l <= |s|
    ensures s == s[..i] + s[i..j] + s[j..k] + s[k..l] + s[l..]
  {}

  lemma TokenHasForm(s: string)
    requires IsToken(s)
    ensures HasForm(s, s[5..|s| - 37], s[|s| - 33..|s| - 1])
  {
    var n := |s|;
    FivePieces(s, 5, n - 37, n - 33, n - 1);
    assert s[n - 1..] == ">";
  }

  /** The tokens are exactly the texts of that form. */
  lemma IsTokenIff(s: string)
    ensures IsToken(s) <==> exists kind: string, digest: string :: HasForm(s, kind, digest)
  {
    if IsToken(s) { TokenHasForm(s); }
    if kind: string, digest: string :| HasForm(s, kind, digest) { TokenParts(kind, digest); }
  }

  // ---------- outer spaces ----------

  ghost predicate Blank(s: string) { forall i :: 0 <= i < |s| ==> IsSpace(s[i]) }

  lemma {:induction false} StripLeftIs(s: string) returns (before: string)
    ensures Blank(before) && s == before + StripLeft(s)
    ensures StripLeft(s) == [] || !IsSpace(StripLeft(s)[0])
  {
    if s != [] && IsSpace(s[0]) {
      var rest := StripLeftIs(s[1..]);
      before := [s[0]] + rest;
      Associative([s[0]], rest, StripLeft(s));
      assert s == [s[0]] + s[1..];
    } else {
      before := [];
    }
  }

  lemma {:induction false} StripRightIs(s: string) returns (after: string)
    ensures Blank(after) && s == StripRight(s) + after
    ensures StripRight(s) == [] || !IsSpace(StripRight(s)[|StripRight(s)| - 1])
    ensures s != [] && !IsSpace(s[0]) ==> StripRight(s) != [] && StripRight(s)[0] == s[0]
  {
    if s != [] && IsSpace(s[|s| - 1]) {
      var n := |s| - 1;
      var rest := StripRightIs(s[..n]);
      after := rest + [s[n]];
      Associative(StripRight(s), rest, [s[n]]);
      assert s == s[..n] + [s[n]];
    } else {
      after := [];
    }
  }

  /** Stripping takes away exactly the white space around a text. */
  lemma StripIs(s: string) returns (before: string, after: string)
    ensures Blank(before) && Blank(after) && s == before + Strip(s) + after
    ensures Strip(s) == [] || (!IsSpace(Strip(s)[0]) && !IsSpace(Strip(s)[|Strip(s)| - 1]))
  {
    before := StripLeftIs(s);
    after := StripRightIs(StripLeft(s));
    Associative(before, Strip(s), after);
  }

  // ---------- card numbers ----------

  /** A 13 to 19 digit run that fails the check is a generic identifier. */
  function KindOfRun(text: string): string {
    if ValidDigits(Digits(text)) then "card" else "numeric_identifier"
  }

  lemma {:induction false} DigitTextOfDigits(s: string)
    ensures |DigitText(s)| == |Digits(s)|
    ensures forall i :: 0 <= i < |Digits(s)| ==> DigitText(s)[i] == '0' + Digits(s)[i] as char
  {
    if s != [] { DigitTextOfDigits(s[1..]); }
  }

  lemma SameDigitsSameText(a: string, b: string)
    requires Digits(a) == Digits(b)
    ensures DigitText(a) == DigitText(b)
  {
    DigitTextOfDigits(a);
    DigitTextOfDigits(b);
  }

  lemma SameTextSameDigits(a: string, b: string)
    requires DigitText(a) == DigitText(b)
    ensures Digits(a) == Digits(b)
  {
    DigitTextOfDigits(a);
    DigitTextOfDigits(b);
    forall i | 0 <= i < |Digits(a)| ensures Digits(a)[i] == Digits(b)[i] {
      assert '0' + Digits(a)[i] as char == '0' + Digits(b)[i] as char;
    }
  }

  lemma {:induction false} StripLeftKeepsDigits(s: string)
    ensures DigitText(StripLeft(s)) == DigitText(s)
  {
    if s != [] && IsSpace(s[0]) { StripLeftKeepsDigits(s[1..]); }
  }

  lemma {:induction false} StripKeepsDigits(s: string)
    ensures DigitText(StripRight(s)) == DigitText(s)
  {
    if s != [] && IsSpace(s[|s| - 1]) {
      var front := s[..|s| - 1];
      assert s == front + [s[|s| - 1]];
      FilterConcat(IsDigit, front, [s[|s| - 1]]);
      assert [s[|s| - 1]][1..] == [];
      StripKeepsDigits(front);
    }
  }

  /** Different messages with one digest: the 32 hex digits of a real one cannot tell
      all messages apart. */
  predicate Collide(kind: string, a: string, b: string, env: Env) {
    && Message(kind, a) != Message(kind, b)
    && env.digest(env.salt, Message(kind, a)) == env.digest(env.salt, Message(kind, b))
  }

  lemma DigitCanonicalForm(kind: string, a: string)
    requires kind in ["card", "phone", "ssn"]
    ensures Canonicalize(Lower(kind), a) == DigitText(a)
  {
    assert Lower(kind) == kind;
    StripLeftKeepsDigits(a);
    StripKeepsDigits(StripLeft(a));
  }

  lemma TokensByDigest(kind: string, da: string, db: string)
    ensures "<PII_" + Upper(kind) + "_V1_" + da + ">" == "<PII_" + Upper(kind) + "_V1_" + db + ">" <==> da == db
  {
    var head := "<PII_" + Upper(kind) + "_V1_";
    var s, t := head + da + ">", head + db + ">";
    assert s[|head|..|s| - 1] == da && t[|head|..|t| - 1] == db;
  }

  lemma MessagesByValue(kind: string, a: string, b: string)
    ensures "V1:" + kind + ":" + a == "V1:" + kind + ":" + b <==> a == b
  {
    var head := "V1:" + kind + ":";
    assert (head + a)[|head|..] == a && (head + b)[|head|..] == b;
  }

  lemma SlugsAreLower(kind: string)
    requires Slugged(kind)
    ensures Lower(kind) == kind
  {}

  lemma ColonEndsTheKind(kind: string, x: string, other: string, y: string)
    requires Slugged(kind) && Slugged(other) && "V1:" + kind + ":" + x == "V1:" + other + ":" + y
    ensures kind == other
  {
    var s, t := "V1:" + kind + ":" + x, "V1:" + other + ":" + y;
    var m, n := 3 + |kind|, 3 + |other|;
    assert s[m] == ':' && t[n] == ':';
    assert forall j :: 3 <= j < m ==> s[j] == kind[j - 3] && s[j] != ':';
    assert forall j :: 3 <= j < n ==> t[j] == other[j - 3] && t[j] != ':';
    assert kind == s[3..m] && other == t[3..n];
  }

  /** Messages of two kinds are never the same, and those of one kind only for values
      with one canonical form. */
  lemma MessagesAreDistinct(kind: string, a: string, other: string, b: string)
    requires Slugged(kind) && Slugged(other)
    ensures Message(kind, a) == Message(other, b) <==>
              kind == other && Canonicalize(kind, a) == Canonicalize(kind, b)
  {
    SlugsAreLower(kind);
    SlugsAreLower(other);
    var x, y := Canonicalize(kind, a), Canonicalize(other, b);
    if Message(kind, a) == Message(other, b) { ColonEndsTheKind(kind, x, other, y); }
    if kind == other { MessagesByValue(kind, x, y); }
  }

  lemma TokensByCanonicalForm(kind: string, a: string, b: string, env: Env)
    ensures TokenFor(kind, a, env) == TokenFor(kind, b, env)
       <==> Canonicalize(Lower(kind), a) == Canonicalize(Lower(kind), b) || Collide(kind, a, b, env)
  {
    var m, n := Message(kind, a), Message(kind, b);
    MessagesByValue(Lower(kind), Canonicalize(Lower(kind), a), Canonicalize(Lower(kind), b));
    TokensByDigest(kind, env.digest(env.salt, m), env.digest(env.salt, n));
  }

  /** Whatever the digest, card, phone and social-security texts get the same token
      exactly when they have the same digits or their messages collide. */
  lemma DigitKindTokens(kind: string, a: string, b: string, env: Env)
    requires kind in ["card", "phone", "ssn"]
    ensures TokenFor(kind, a, env) == TokenFor(kind, b, env) <==> Digits(a) == Digits(b) || Collide(kind, a, b, env)
  {
    DigitCanonicalForm(kind, a);
    DigitCanonicalForm(kind, b);
    if DigitText(a) == DigitText(b) { SameTextSameDigits(a, b); }
    if Digits(a) == Digits(b) { SameDigitsSameText(a, b); }
    TokensByCanonicalForm(kind, a, b, env);
  }

  /** A kind whose texts are tokenized as they are, up to outer spaces. */
  predicate KeepsText(kind: string) { Lower(kind) !in ["email", "phone", "card", "ssn"] }

  /** Whatever the digest, texts of such a kind get the same token exactly when they
      agree up to outer spaces or their messages collide. */
  lemma PlainKindTokens(kind: string, a: string, b: string, env: Env)
    requires KeepsText(kind)
    ensures TokenFor(kind, a, env) == TokenFor(kind, b, env) <==> Strip(a) == Strip(b) || Collide(kind, a, b, env)
  {
    TokensByCanonicalForm(kind, a, b, env);
  }

  lemma NumericCanonicalForm(kind: string, a: string, b: string)
    requires kind != [] && kind[0] == 'n'
    ensures Canonicalize(Lower(kind), a) == Canonicalize(Lower(kind), b) <==> Strip(a) == Strip(b)
  {
    assert Lower(kind)[0] == 'n';
  }

  lemma NumericTokens(a: string, b: string, env: Env)
    ensures TokenFor("numeric_identifier", a, env) == TokenFor("numeric_identifier", b, env)
       <==> Strip(a) == Strip(b) || Collide("numeric_identifier", a, b, env)
  {
    NumericCanonicalForm("numeric_identifier", a, b);
    TokensByCanonicalForm("numeric_identifier", a, b, env);
  }

  /**
   Whatever the digest, two runs with the same digits get the same kind; the same token
   too if they pass the check, and otherwise exactly when they agree up to outer spaces
   or their messages collide.
   */
  lemma SameDigitsSameToken(a: string, b: string, env: Env)
    requires Digits(a) == Digits(b)
    ensures KindOfRun(a) == KindOfRun(b)
    ensures TokenFor(KindOfRun(a), a, env) == TokenFor(KindOfRun(b), b, env)
       <==> ValidDigits(Digits(a)) || Strip(a) == Strip(b) || Collide(KindOfRun(a), a, b, env)
  {
    if ValidDigits(Digits(a)) {
      DigitKindTokens("card", a, b, env);
    } else {
      NumericTokens(a, b, env);
    }
  }

  function Zeros(n: nat): string { seq(n, _ => '0') }

  lemma {:induction false} ZerosAddNothing(n: nat)
    ensures |Digits(Zeros(n))| == n && Total(Digits(Zeros(n))) == 0
  {
    var zeros := Zeros(n);
    if n > 0 {
      assert zeros[1..] == Zeros(n - 1);
      ZerosAddNothing(n - 1);
      assert Digits(zeros) == [0] + Digits(zeros[1..]);
      assert ([0] + Digits(zeros[1..]))[1..] == Digits(zeros[1..]);
    }
  }

  lemma OneThenZeros(n: nat)
    ensures var s := "1" + Zeros(n); |Digits(s)| == n + 1 && (n % 2 == 0 ==> Total(Digits(s)) == 1)
  {
    var zeros := Zeros(n);
    ZerosAddNothing(n);
    assert ("1" + zeros)[1..] == zeros;
    assert Digits("1" + zeros) == [1] + Digits(zeros) && ([1] + Digits(zeros))[1..] == Digits(zeros);
  }

  lemma UnpaddedIsStripped(s: string)
    requires s != [] && !IsSpace(s[0]) && !IsSpace(s[|s| - 1])
    ensures Strip(s) == s
  {}

  lemma DashIsKept(x: string, y: string)
    requires x != [] && y != [] && !IsSpace(x[0]) && !IsSpace(y[|y| - 1])
    ensures Strip(x + y) != Strip(x + "-" + y)
  {
    UnpaddedIsStripped(x + y);
    UnpaddedIsStripped(x + "-" + y);
    assert |x + y| < |x + "-" + y|;
  }

  /** A dash inside a run that fails the check changes its token. */
  lemma DashChangesInvalidToken(x: string, y: string, env: Env)
    requires !ValidDigits(Digits(x + y)) && !Collide(KindOfRun(x + y), x + y, x + "-" + y, env)
    requires x != [] && y != [] && !IsSpace(x[0]) && !IsSpace(y[|y| - 1])
    ensures var a, b := x + y, x + "-" + y;
      && Digits(a) == Digits(b) && KindOfRun(a) == KindOfRun(b)
      && TokenFor(KindOfRun(a), a, env) != TokenFor(KindOfRun(b), b, env)
  {
    var a, b := x + y, x + "-" + y;
    assert Digits(a) == Digits(b) by { SeparatorsAreIgnored(x, "-", y); }
    assert Strip(a) != Strip(b) by { DashIsKept(x, y); }
    SameDigitsSameToken(a, b, env);
  }

  /** A one and `n` zeros, without and with a dash between. */
  function PlainRun(n: nat): string { "1" + Zeros(n) }

  function DashedRun(n: nat): string { "1" + "-" + Zeros(n) }

  lemma PlainRunFails(n: nat)
    requires n % 2 == 0
    ensures |Digits(PlainRun(n))| == n + 1 && !ValidDigits(Digits(PlainRun(n)))
  {
    OneThenZeros(n);
  }

  /** For 13, 15, 17 or 19 digits these are a card text that fails the check, and every
      digest that tells their messages apart gives them different tokens. */
  lemma InvalidCardsCanDiffer(n: nat, env: Env)
    requires n % 2 == 0 && 12 <= n <= 18
    requires !Collide(KindOfRun(PlainRun(n)), PlainRun(n), DashedRun(n), env)
    ensures var a, b := PlainRun(n), DashedRun(n);
      && 13 <= |Digits(a)| <= 19 && Digits(a) == Digits(b) && KindOfRun(a) == KindOfRun(b)
      && TokenFor(KindOfRun(a), a, env) != TokenFor(KindOfRun(b), b, env)
  {
    PlainRunFails(n);
    assert Zeros(n)[n - 1] == '0';
    DashChangesInvalidToken("1", Zeros(n), env);
  }

  /** For any two texts there are digests of 32 hex digits that do. */
  lemma SomeDigestTellsApart(kind: string, a: string, b: string, scan: string -> seq<Segment>) returns (env: Env)
    ensures HexDigest(env) && env.scan == scan && !Collide(kind, a, b, env)
  {
    var m := Message(kind, a);
    env := Env("salt", (salt, message) => seq(32, _ => if message == m then 'a' else 'b'), scan);
    assert env.digest(env.salt, m)[0] == 'a';
    if Message(kind, b) != m { assert env.digest(env.salt, Message(kind, b))[0] == 'b'; }
  }

  /** Mail addresses get the same token exactly when they agree up to letter case
      and outer spaces or their messages collide. */
  lemma EmailTokens(a: string, b: string, env: Env)
    ensures TokenFor("email", a, env) == TokenFor("email", b, env)
       <==> Lower(Strip(a)) == Lower(Strip(b)) || Collide("email", a, b, env)
  {
    assert Lower("email") == "email";
    TokensByCanonicalForm("email", a, b, env);
  }

  // ---------- redaction of a matched text ----------

  function FinalKind(s: Segment): Option<string> {
    if s.Plain? || s.kind == "datetime" then None
    else if s.kind == "card" then Some(KindOfRun(s.text))
    else Some(s.kind)
  }

  function Rewrite(s: Segment, env: Env): string {
    match FinalKind(s) case None => s.text case Some(kind) => TokenFor(kind, s.text, env)
  }

  function RewriteAll(segments: seq<Segment>, env: Env): string {
    if segments == [] then [] else RewriteAll(segments[..|segments| - 1], env) + Rewrite(segments[|segments| - 1], env)
  }

  /** What becomes of a segment: a match gets the token of the kind that matched, except
      that a card number which fails the check gets a numeric one and a time stamp stays. */
  lemma RewriteIs(s: Segment, env: Env)
    ensures s.Plain? || s.kind == "datetime" ==> Rewrite(s, env) == s.text
    ensures s.Match? && s.kind != "datetime" && s.kind != "card" ==> Rewrite(s, env) == TokenFor(s.kind, s.text, env)
    ensures s.Match? && s.kind == "card" ==>
      var valid := 13 <= |DigitText(s.text)| <= 19 && ValidDigits(Digits(s.text));
      Rewrite(s, env) == TokenFor(if valid then "card" else "numeric_identifier", s.text, env)
  {
    DigitTextOfDigits(s.text);
  }

  /** `redact(text)`: `PII_PATTERN.sub(replace, text)`. */
  function RedactText(text: string, env: Env): string { RewriteAll(env.scan(text), env) }

  /** The segments of a scan, joined. */
  function TextOf(segments: seq<Segment>): string {
    if segments == [] then [] else TextOf(segments[..|segments| - 1]) + segments[|segments| - 1].text
  }

  /** A scan only cuts its text into pieces. */
  ghost predicate Lossless(env: Env) { forall s :: TextOf(env.scan(s)) == s }

  predicate IsPii(s: Segment) { s.Match? && s.kind != "datetime" }

  /** What the groups of PII_PATTERN but that for time stamps can match: a mail address
      contains '@', and a card, phone or social-security number at least two digits;
      none of them contains '<'. The names of the groups are in lower case. */
  ghost predicate CanMatch(s: Segment)
    requires s.Match?
  {
    && ('@' in s.text || |DigitText(s.text)| >= 2)
    && '<' !in s.text && Slugged(s.kind)
  }

  ghost predicate PatternSound(env: Env) {
    && Lossless(env)
    && forall s, i :: 0 <= i < |env.scan(s)| && IsPii(env.scan(s)[i]) ==> CanMatch(env.scan(s)[i])
  }

  /** No '@', and no digit before the last character. */
  ghost predicate Wordy(s: string) {
    forall i :: 0 <= i < |s| ==> s[i] != '@' && (i + 1 < |s| ==> !IsDigit(s[i]))
  }

  lemma {:induction false} PieceOf(segments: seq<Segment>, i: nat)
    requires i < |segments|
    ensures '@' in segments[i].text ==> '@' in TextOf(segments)
    ensures |DigitText(segments[i].text)| <= |DigitText(TextOf(segments))|
  {
    var n := |segments| - 1;
    FilterConcat(IsDigit, TextOf(segments[..n]), segments[n].text);
    if i < n { PieceOf(segments[..n], i); }
  }

  lemma {:induction false} NothingRewritten(segments: seq<Segment>, env: Env)
    requires forall i :: 0 <= i < |segments| ==> !IsPii(segments[i])
    ensures RewriteAll(segments, env) == TextOf(segments)
  {
    if segments != [] { NothingRewritten(segments[..|segments| - 1], env); }
  }

  lemma WordyHasOneDigit(s: string)
    requires Wordy(s)
    ensures '@' !in s && |DigitText(s)| <= 1
  {
    if s != [] {
      var n := |s| - 1;
      FilterNothing(IsDigit, s[..n]);
      FilterConcat(IsDigit, s[..n], [s[n]]);
      FilterOne(IsDigit, s[n]);
      assert s == s[..n] + [s[n]];
    }
  }

  /** The scan finds nothing but time stamps in this text. */
  ghost predicate Unmatched(s: string, env: Env) {
    forall i :: 0 <= i < |env.scan(s)| ==> !IsPii(env.scan(s)[i])
  }

  predicate IsOpening(c: char) { c == '<' }

  function Openings(s: string): nat { |Filter(IsOpening, s)| }

  lemma OpeningsOfConcat(a: string, b: string)
    ensures Openings(a + b) == Openings(a) + Openings(b)
  {
    FilterConcat(IsOpening, a, b);
  }

  lemma TokenHasOpening(kind: string, value: string, env: Env)
    ensures Openings(TokenFor(kind, value, env)) >= 1
  {
    assert TokenFor(kind, value, env)[0] == '<';
  }

  lemma RewriteAddsOpening(s: Segment, env: Env)
    requires IsPii(s) && '<' !in s.text
    ensures Openings(Rewrite(s, env)) > Openings(s.text)
  {
    FilterNothing(IsOpening, s.text);
    TokenHasOpening(FinalKind(s).value, s.text, env);
  }

  /** Every rewritten match adds a '<'. */
  lemma {:induction false} RewritingAddsOpenings(segments: seq<Segment>, env: Env)
    requires forall i :: 0 <= i < |segments| && IsPii(segments[i]) ==> '<' !in segments[i].text
    ensures Openings(RewriteAll(segments, env)) >= Openings(TextOf(segments))
    ensures (exists i :: 0 <= i < |segments| && IsPii(segments[i])) ==>
      Openings(RewriteAll(segments, env)) > Openings(TextOf(segments))
  {
    if segments != [] {
      var front, last := segments[..|segments| - 1], segments[|segments| - 1];
      RewritingAddsOpenings(front, env);
      OpeningsOfConcat(RewriteAll(front, env), Rewrite(last, env));
      OpeningsOfConcat(TextOf(front), last.text);
      if IsPii(last) {
        RewriteAddsOpening(last, env);
      } else {
        assert forall i :: 0 <= i < |front| ==> front[i] == segments[i];
      }
    }
  }

  /** Pattern redaction leaves a text as it is exactly when the scan finds nothing but
      time stamps in it. */
  lemma KeptIff(s: string, env: Env)
    requires PatternSound(env)
    ensures RedactText(s, env) == s <==> Unmatched(s, env)
  {
    if Unmatched(s, env) { NothingRewritten(env.scan(s), env); }
    RewritingAddsOpenings(env.scan(s), env);
  }

  lemma WordyIsUnmatched(s: string, env: Env)
    requires PatternSound(env) && Wordy(s)
    ensures Unmatched(s, env)
  {
    WordyHasOneDigit(s);
    forall i | 0 <= i < |env.scan(s)| ensures !IsPii(env.scan(s)[i]) { PieceOf(env.scan(s), i); }
  }

  /** The scan takes this text for one time stamp. */
  ghost predicate ScansAsTime(s: string, env: Env) { env.scan(s) == [Match("datetime", s)] }

  lemma RewriteOne(s: Segment, env: Env)
    ensures RewriteAll([s], env) == Rewrite(s, env)
  {
    assert [s][..0] == [] && [] + Rewrite(s, env) == Rewrite(s, env);
  }

  lemma RunKindIsSlugged(s: string)
    ensures Slugged(KindOfRun(s))
  {}

  /** The scan takes this text for one match that is no time stamp. */
  ghost predicate WholeMatch(s: string, env: Env) {
    |env.scan(s)| == 1 && IsPii(env.scan(s)[0])
  }

  /** Such a text becomes one token. */
  lemma WholeMatchBecomesToken(s: string, env: Env)
    requires HexDigest(env) && PatternSound(env) && WholeMatch(s, env)
    ensures IsToken(RedactText(s, env)) && !Unmatched(s, env)
  {
    var m := env.scan(s)[0];
    assert env.scan(s) == [m] && IsPii(env.scan(s)[0]);
    RewriteOne(m, env);
    RunKindIsSlugged(m.text);
    TokenIsToken(FinalKind(m).value, m.text, env);
  }

  /** The pieces are rewritten one by one, in order. */
  lemma {:induction false} RewriteFirst(s: Segment, rest: seq<Segment>, env: Env)
    ensures RewriteAll([s] + rest, env) == Rewrite(s, env) + RewriteAll(rest, env)
    ensures TextOf([s] + rest) == s.text + TextOf(rest)
  {
    var all := [s] + rest;
    if rest == [] {
      assert all == [s];
      RewriteOne(s, env);
      assert [s][..0] == [] && [] + s.text == s.text;
    } else {
      var front, last := rest[..|rest| - 1], rest[|rest| - 1];
      assert all[..|all| - 1] == [s] + front && all[|all| - 1] == last;
      RewriteFirst(s, front, env);
      Associative(Rewrite(s, env), RewriteAll(front, env), Rewrite(last, env));
      Associative(s.text, TextOf(front), last.text);
    }
  }

  /** What is around the matches stays: a text with one match in it. */
  lemma OneMatchIsReplaced(s: string, before: string, m: Segment, after: string, env: Env)
    requires env.scan(s) == [Plain(before)] + ([m] + [Plain(after)]) && IsPii(m)
    ensures TextOf(env.scan(s)) == before + (m.text + after)
    ensures RedactText(s, env) == before + (TokenFor(FinalKind(m).value, m.text, env) + after)
  {
    RewriteOne(Plain(after), env);
    RewriteFirst(m, [Plain(after)], env);
    RewriteFirst(Plain(before), [m] + [Plain(after)], env);
    RewriteFirst(Plain(after), [], env);
    assert [Plain(after)] + [] == [Plain(after)] && after + [] == after;
  }

  function Occurrences(segments: seq<Segment>, kind: string): nat {
    if segments == [] then 0 else
      Occurrences(segments[..|segments| - 1], kind) + if FinalKind(segments[|segments| - 1]) == Some(kind) then 1 else 0
  }

  /** The nested function `replace`, with the kind it counts; the text between
      matches is copied. */
  method Replace(s: Segment, env: Env) returns (text: string, counted: Option<string>)
    ensures counted == FinalKind(s) && text == Rewrite(s, env)
  {
    if s.Plain? || s.kind == "datetime" { return s.text, None; }
    var kind := s.kind;
    if kind == "card" {
      var valid := IsLuhnValid(s.text);
      if !valid { kind := "numeric_identifier"; }
    }
    text, counted := TokenFor(kind, s.text, env), Some(kind);
  }

  function OfKind(kind: string): Segment -> bool { (s: Segment) => FinalKind(s) == Some(kind) }

  /** The occurrences of a kind are the segments that end as that kind. */
  lemma {:induction false} OccurrencesAre(segments: seq<Segment>, kind: string)
    ensures Occurrences(segments, kind) == |Filter(OfKind(kind), segments)|
  {
    if segments != [] {
      var front, last := segments[..|segments| - 1], segments[|segments| - 1];
      OccurrencesAre(front, kind);
      assert segments == front + [last];
      FilterConcat(OfKind(kind), front, [last]);
      FilterOne(OfKind(kind), last);
    }
  }

  /** `counts[kind] = counts.get(kind, 0) + 1` */
  function Counted(counts: map<string, nat>, kind: Option<string>): map<string, nat> {
    if kind.None? then counts
    else counts[kind.value := (if kind.value in counts then counts[kind.value] else 0) + 1]
  }

  /** The counts are those of the final kinds so far. */
  ghost predicate CountsMatch(counts: map<string, nat>, segments: seq<Segment>) {
    && (forall kind :: kind in counts <==> Occurrences(segments, kind) > 0)
    && (forall kind :: kind in counts ==> counts[kind] == Occurrences(segments, kind))
  }

  lemma CountNext(counts: map<string, nat>, segments: seq<Segment>, s: Segment)
    requires CountsMatch(counts, segments)
    ensures CountsMatch(Counted(counts, FinalKind(s)), segments + [s])
  {
    assert (segments + [s])[..|segments|] == segments;
    assert forall kind :: Occurrences(segments + [s], kind)
                       == Occurrences(segments, kind) + (if FinalKind(s) == Some(kind) then 1 else 0);
  }

  lemma RewriteNext(segments: seq<Segment>, s: Segment, env: Env)
    ensures RewriteAll(segments + [s], env) == RewriteAll(segments, env) + Rewrite(s, env)
  {
    assert (segments + [s])[..|segments|] == segments;
  }

  /** The dictionary after all segments. */
  function Tally(segments: seq<Segment>): map<string, nat> {
    if segments == [] then map[] else
      Counted(Tally(segments[..|segments| - 1]), FinalKind(segments[|segments| - 1]))
  }

  lemma TallyNext(segments: seq<Segment>, s: Segment)
    ensures Tally(segments + [s]) == Counted(Tally(segments), FinalKind(s))
  {
    assert (segments + [s])[..|segments|] == segments;
  }

  lemma {:induction false} TallyMatches(segments: seq<Segment>)
    ensures CountsMatch(Tally(segments), segments)
  {
    if segments != [] {
      var front, last := segments[..|segments| - 1], segments[|segments| - 1];
      TallyMatches(front);
      CountNext(Tally(front), front, last);
      assert front + [last] == segments;
    }
  }

  /** One segment more. */
  method SubstituteNext(text: string, counts: map<string, nat>, ghost done: seq<Segment>, s: Segment, env: Env)
    returns (text': string, counts': map<string, nat>)
    requires text == RewriteAll(done, env) && counts == Tally(done)
    ensures text' == RewriteAll(done + [s], env) && counts' == Tally(done + [s])
  {
    var replacement, kind := Replace(s, env);
    RewriteNext(done, s, env);
    TallyNext(done, s);
    text', counts' := text + replacement, Counted(counts, kind);
  }

  lemma PrefixNext(segments: seq<Segment>, i: nat)
    requires i < |segments|
    ensures segments[..i] + [segments[i]] == segments[..i + 1]
  {}

  /** `PII_PATTERN.sub(replace, text)`: every match is replaced once, and time stamps
      are kept. */
  method Substitute(segments: seq<Segment>, env: Env) returns (text: string, counts: map<string, nat>)
    ensures text == RewriteAll(segments, env)
    ensures counts == Tally(segments)
  {
    text, counts := [], map[];
    var i := 0;
    while i < |segments|
      invariant i <= |segments|
      invariant text == RewriteAll(segments[..i], env) && counts == Tally(segments[..i])
    {
      PrefixNext(segments, i);
      text, counts := SubstituteNext(text, counts, segments[..i], segments[i], env);
      i := i + 1;
    }
    assert segments[..i] == segments;
  }

  /** `redact(value)`: the counts are those of the replaced kinds. */
  method Redact(value: string, env: Env) returns (text: string, counts: map<string, nat>)
    ensures text == RedactText(value, env)
    ensures CountsMatch(counts, env.scan(value))
  {
    text, counts := Substitute(env.scan(value), env);
    TallyMatches(env.scan(value));
  }
}
