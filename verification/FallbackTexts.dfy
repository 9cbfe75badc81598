/**
 The texts the fallback writes, and the part of the output filter that looks
 at single characters. The regular expressions for commands and secrets and the
 Unicode classes of control and format characters are `suspicious`.
 */
module FallbackTexts {
  import opened Text
  import opened Ranking
  import opened RankingFallback

  const FORBIDDEN: string := "`|;<>"

  /** Execution syntax: a forbidden character, or one of the pairs `&&`, `||` and `$(`. */
  predicate SyntaxAt(s: string, i: nat)
    requires i < |s|
  {
    s[i] in FORBIDDEN || (i + 1 < |s| && s[i..i + 2] in ["&&", "||", "$("])
  }

  predicate HasSyntax(s: string) {
    exists i :: 0 <= i < |s| && SyntaxAt(s, i)
  }

  function OutputFilter(suspicious: string -> bool): Filter {
    (s: string, max: nat) => 1 <= |s| <= max && !HasSyntax(s) && !suspicious(s)
  }

  /**
   A confidence with two decimals. How the third decimal is rounded affects
   neither the length nor the syntax of the text.
   */
  function TwoDecimals(c: real): string {
    var n := (c * 100.0 + 0.5).Floor;
    if n < 0 then "-" else Digits(n / 100) + "." + [DIGITS[n / 10 % 10]] + [DIGITS[n % 10]]
  }

  const EMPTY: string := "规则扫描未发现异常项。"
  const VERIFICATION: string := "核对进程所属服务、启动时间和近期变更。"
  const ADVICE: string := "查看关联日志，确认进程是否符合预期。"

  function Summary(n: nat): string {
    "按严重度和置信度整理了 " + Digits(n) + " 个异常项。"
  }

  function Rationale(severity: string, confidence: real): string {
    ("严重度 " + severity) + ("，置信度 " + TwoDecimals(confidence) + "。")
  }

  const TEXTS := Texts(EMPTY, Summary, Rationale, VERIFICATION, ADVICE)

  /** The filter's regular expressions match none of the texts the fallback can write for valid findings. */
  ghost predicate NoneSuspicious(suspicious: string -> bool) {
    && !suspicious(EMPTY) && !suspicious(VERIFICATION) && !suspicious(ADVICE)
    && (forall n: nat :: 1 <= n <= MAX_FINDINGS ==> !suspicious(Summary(n)))
    && (forall s, c: real :: s in SEVERITIES && 0.0 <= c <= 1.0 ==> !suspicious(Rationale(s, c)))
  }

  /** Characters that occur in no execution syntax. */
  predicate Harmless(s: string) {
    forall c :: c in s ==> c !in FORBIDDEN && c != '&' && c != '$'
  }

  lemma HarmlessHasNoSyntax(s: string)
    requires Harmless(s)
    ensures !HasSyntax(s)
  {
    forall i | 0 <= i < |s| ensures !SyntaxAt(s, i) {
      assert s[i] in s;
      if i + 1 < |s| {
        assert s[i..i + 2][0] == s[i];
      }
    }
  }

  lemma DigitsAreHarmless(n: nat)
    ensures Harmless(Digits(n))
  {
    DigitsAreDigits(n);
  }

  lemma ShortNumeral(n: nat)
    requires n < 1000
    ensures 1 <= |Digits(n)| <= 3
  {
    if n >= 10 {
      assert n / 10 >= 10 ==> |Digits(n / 10)| == |Digits(n / 10 / 10)| + 1;
    }
  }

  lemma SeverityIsHarmless(severity: string)
    requires severity in SEVERITIES
    ensures Harmless(severity) && |severity| <= 8
  {
    var i :| 0 <= i < |SEVERITIES| && severity == SEVERITIES[i];
  }

  lemma ConfidenceIsHarmless(c: real)
    requires 0.0 <= c <= 1.0
    ensures Harmless(TwoDecimals(c)) && |TwoDecimals(c)| <= 6
  {
    var n := (c * 100.0 + 0.5).Floor;
    assert 0 <= n <= 100;
    DigitsAreHarmless(n / 100);
    ShortNumeral(n / 100);
    assert forall i :: 0 <= i < 10 ==> IsDigit(DIGITS[i]);
  }

  lemma HarmlessTogether(a: string, b: string)
    requires Harmless(a) && Harmless(b)
    ensures Harmless(a + b)
  {
  }

  lemma SummaryPasses(n: nat)
    requires 1 <= n <= MAX_FINDINGS
    ensures 1 <= |Summary(n)| <= MAX_SUMMARY && !HasSyntax(Summary(n))
  {
    DigitsAreHarmless(n);
    ShortNumeral(n);
    HarmlessHasNoSyntax(Summary(n));
  }

  lemma RationalePasses(severity: string, c: real)
    requires severity in SEVERITIES && 0.0 <= c <= 1.0
    ensures 1 <= |Rationale(severity, c)| <= MAX_TEXT && !HasSyntax(Rationale(severity, c))
  {
    SeverityIsHarmless(severity);
    ConfidenceIsHarmless(c);
    HarmlessTogether("严重度 ", severity);
    HarmlessTogether("，置信度 ", TwoDecimals(c));
    HarmlessTogether("，置信度 " + TwoDecimals(c), "。");
    HarmlessTogether("严重度 " + severity, "，置信度 " + TwoDecimals(c) + "。");
    HarmlessHasNoSyntax(Rationale(severity, c));
  }

  lemma EmptyPasses()
    ensures 1 <= |EMPTY| <= MAX_SUMMARY && !HasSyntax(EMPTY)
  {
    HarmlessHasNoSyntax(EMPTY);
  }

  lemma VerificationPasses()
    ensures 1 <= |VERIFICATION| <= MAX_TEXT && !HasSyntax(VERIFICATION)
  {
    HarmlessHasNoSyntax(VERIFICATION);
  }

  lemma AdvicePasses()
    ensures 1 <= |ADVICE| <= MAX_TEXT && !HasSyntax(ADVICE)
  {
    HarmlessHasNoSyntax(ADVICE);
  }

  /** The texts keep the length limits and contain no execution syntax, for all findings the fallback can meet. */
  lemma TextsPass(suspicious: string -> bool)
    requires NoneSuspicious(suspicious)
    ensures AllAccepted(TEXTS, OutputFilter(suspicious))
  {
    var accepts := OutputFilter(suspicious);
    EmptyPasses();
    VerificationPasses();
    AdvicePasses();
    forall n: nat | 1 <= n <= MAX_FINDINGS ensures accepts(TEXTS.summary(n), MAX_SUMMARY) {
      SummaryPasses(n);
      assert TEXTS.summary(n) == Summary(n);
    }
    forall s, c: real | s in SEVERITIES && 0.0 <= c <= 1.0 ensures accepts(TEXTS.rationale(s, c), MAX_TEXT) {
      RationalePasses(s, c);
      assert TEXTS.rationale(s, c) == Rationale(s, c);
    }
  }

  /**
   With its own texts and the length and syntax rules of the filter, the
   fallback is accepted for all valid findings.
   */
  lemma FallbackIsAccepted(a: Analysis, fs: seq<Finding>, suspicious: string -> bool)
    requires ValidFindings(fs) && IsFallback(a, fs, TEXTS) && NoneSuspicious(suspicious)
    ensures Passes(a, fs, OutputFilter(suspicious))
  {
    TextsPass(suspicious);
    FallbackIsSound(a, fs, TEXTS, OutputFilter(suspicious));
  }
}
