/**
 A concrete digest and pattern scan, both sound, under which sanitizing a text
 twice differs from sanitizing it once (app/redaction.py, lines 121-174).
 */
module SanitizeTwice {
  import opened Collections
  import opened Luhn
  import opened Redaction
  import opened Sanitizer

  function Ones(): string { seq(13, _ => '1') }

  /** 32 hex digits that begin with a run of 13 digits. */
  function RunDigest(): string { Ones() + seq(19, _ => 'a') }

  /** Finds a mail address at the end, or the run in a token at the end. */
  function SampleScan(s: string): seq<Segment> {
    var n := |s|;
    if n >= 6 && s[n - 6..] == "a@b.io" then [Plain(s[..n - 6]), Match("email", s[n - 6..])]
    else if n >= 33 && s[n - 33..n - 20] == Ones() then
      [Plain(s[..n - 33]), Match("card", s[n - 33..n - 20]), Plain(s[n - 20..])]
    else [Plain(s)]
  }

  function SampleEnv(): Env { Env("salt", (salt, message) => RunDigest(), SampleScan) }

  lemma TextOfOne(a: Segment)
    ensures TextOf([a]) == a.text
  {
    assert [a][..0] == [] && [] + a.text == a.text;
  }

  lemma TextNext(segments: seq<Segment>, s: Segment)
    ensures TextOf(segments + [s]) == TextOf(segments) + s.text
  {
    assert (segments + [s])[..|segments|] == segments;
  }

  lemma TextOfTwo(a: Segment, b: Segment)
    ensures TextOf([a, b]) == a.text + b.text
  {
    assert [a] + [b] == [a, b];
    TextOfOne(a);
    TextNext([a], b);
  }

  lemma TextOfThree(a: Segment, b: Segment, c: Segment)
    ensures TextOf([a, b, c]) == a.text + b.text + c.text
  {
    assert [a, b] + [c] == [a, b, c];
    TextOfTwo(a, b);
    TextNext([a, b], c);
  }

  lemma SampleIsLossless(s: string)
    ensures TextOf(SampleScan(s)) == s
  {
    var scan, n := SampleScan(s), |s|;
    if |scan| == 3 {
      TextOfThree(scan[0], scan[1], scan[2]);
      assert scan == [scan[0], scan[1], scan[2]];
      assert s == s[..n - 33] + s[n - 33..n - 20] + s[n - 20..];
    } else if |scan| == 2 {
      TextOfTwo(scan[0], scan[1]);
      assert scan == [scan[0], scan[1]];
    } else {
      TextOfOne(scan[0]);
    }
  }

  lemma {:induction false} AllDigitsCount(s: string)
    requires forall i :: 0 <= i < |s| ==> IsDigit(s[i])
    ensures |Digits(s)| == |s|
  {
    if s != [] { AllDigitsCount(s[1..]); }
  }

  lemma OnesAreDigits()
    ensures |DigitText(Ones())| == 13
  {
    DigitTextOfDigits(Ones());
    AllDigitsCount(Ones());
  }

  lemma OnesCanMatch()
    ensures CanMatch(Match("card", Ones()))
  {
    OnesAreDigits();
  }

  lemma MailCanMatch()
    ensures CanMatch(Match("email", "a@b.io"))
  {
    assert "a@b.io"[1] == '@';
  }

  lemma SampleIsSound()
    ensures HexDigest(SampleEnv()) && PatternSound(SampleEnv())
  {
    var env := SampleEnv();
    forall s ensures TextOf(env.scan(s)) == s { SampleIsLossless(s); }
    forall s, i | 0 <= i < |env.scan(s)| && IsPii(env.scan(s)[i]) ensures CanMatch(env.scan(s)[i]) {
      if env.scan(s)[i].text == Ones() {
        OnesCanMatch();
      } else {
        MailCanMatch();
      }
    }
  }

  lemma TwoPieces(a: Segment, b: Segment, env: Env)
    ensures RewriteAll([a, b], env) == Rewrite(a, env) + Rewrite(b, env)
  {
    assert [a] + [b] == [a, b];
    RewriteOne(a, env);
    RewriteNext([a], b, env);
  }

  lemma FirstPass(start: string, mail: string, env: Env)
    requires env == SampleEnv() && mail == "a@b.io"
    ensures RedactText(start + mail, env) == start + ("<PII_" + Upper("email") + "_V1_") + RunDigest() + ">"
  {
    var s := start + mail;
    assert s[|s| - 6..] == mail && s[..|s| - 6] == start;
    TwoPieces(Plain(start), Match("email", mail), env);
    assert TokenFor("email", mail, env) == ("<PII_" + Upper("email") + "_V1_") + RunDigest() + ">";
    Associative(start, "<PII_" + Upper("email") + "_V1_", RunDigest() + ">");
    Associative("<PII_" + Upper("email") + "_V1_", RunDigest(), ">");
    Associative(start + ("<PII_" + Upper("email") + "_V1_"), RunDigest(), ">");
  }

  lemma NoTokenStart(s: string)
    requires s != [] && s[0] != '<'
    ensures !IsToken(s)
  {
    if |s| >= 43 { assert s[..5][0] == s[0]; }
  }

  lemma RunIsFound(head: string)
    ensures var r := head + RunDigest() + ">"; var n := |r|;
      n >= 33 && SampleScan(r) == [Plain(r[..n - 33]), Match("card", r[n - 33..n - 20]), Plain(r[n - 20..])]
  {
    var r := head + RunDigest() + ">";
    var n := |r|;
    assert r[n - 33..n - 20] == Ones();
    assert r[n - 6..][5] == '>' && r[n - 6..] != "a@b.io";
  }

  lemma SecondPass(head: string, env: Env)
    requires env == SampleEnv()
    ensures !Unmatched(head + RunDigest() + ">", env)
  {
    RunIsFound(head);
    assert IsPii(env.scan(head + RunDigest() + ">")[1]);
  }

  /** A plain start and a mail address at the end. */
  lemma TextWithMail(start: string, mail: string, env: Env) returns (s: string)
    requires env == SampleEnv() && mail == "a@b.io" && start != [] && start[0] != '<'
    ensures !Settled(s, env)
  {
    s := start + mail;
    var head := start + ("<PII_" + Upper("email") + "_V1_");
    FirstPass(start, mail, env);
    SecondPass(head, env);
    NoTokenStart(s);
    NoTokenStart(head + RunDigest() + ">");
  }

  lemma NoFieldIsOrdinary()
    ensures KindOfField("").Ordinary?
  {}

  lemma UnsettledDiffers(s: string, field: string, env: Env)
    requires HexDigest(env) && PatternSound(env) && !Settled(s, env) && KindOfField(field).Ordinary?
    ensures SanitizeText(SanitizeText(s, field, env), field, env) != SanitizeText(s, field, env)
  {
    TextIdempotentIff(s, field, env);
  }

  /** A mail address in a text becomes a token whose digest the next pass takes for a
      number, although the digest and the pattern scan are sound. */
  lemma SanitizingTwiceCanDiffer() returns (env: Env, s: string)
    ensures HexDigest(env) && PatternSound(env) && !Settled(s, env)
    ensures SanitizeText(SanitizeText(s, "", env), "", env) != SanitizeText(s, "", env)
  {
    env := SampleEnv();
    SampleIsSound();
    s := TextWithMail("to ", "a@b.io", env);
    NoFieldIsOrdinary();
    UnsettledDiffers(s, "", env);
  }
}
