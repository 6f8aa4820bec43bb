/**
 * The fixed-decimal text format required of course and experience prices and
 * of purchase amounts: the regular expression `^\d+(\.\d{1,2})?$`, i.e. one or
 * more ASCII digits, optionally followed by a dot and one or two digits.
 * (`\d` without the `u` flag is exactly `[0-9]`.)
 */
module DecimalFormat {

  predicate IsDigit(c: char) {
    '0' <= c <= '9'
  }

  predicate AllDigits(s: string) {
    forall i :: 0 <= i < |s| ==> IsDigit(s[i])
  }

  /**
   * The language of the pattern, stated declaratively: a split point `k`
   * such that `s[..k]` is a non-empty digit run and the rest is empty or a
   * dot followed by one or two digits.
   */
  ghost predicate MatchesPattern(s: string) {
    exists k :: 1 <= k <= |s| && AllDigits(s[..k]) && FractionPart(s[k..])
  }

  /** `(\.\d{1,2})?` matched against the whole of `t`. */
  predicate FractionPart(t: string) {
    t == [] || (t[0] == '.' && 2 <= |t| <= 3 && AllDigits(t[1..]))
  }

  /** The length of the longest run of digits that starts `s` (what `\d+` consumes greedily). */
  function LeadingDigits(s: string): (n: nat)
    ensures n <= |s|
    ensures AllDigits(s[..n])
    ensures n < |s| ==> !IsDigit(s[n])
  {
    if s == [] || !IsDigit(s[0]) then 0
    else
      var n := 1 + LeadingDigits(s[1..]);
      assert forall i :: 1 <= i < n ==> s[..n][i] == s[1..][..n - 1][i - 1];
      n
  }

  /** The matcher: consume the digit run, then check what is left. */
  predicate IsDecimal(s: string): (ok: bool)
    ensures ok ==> |s| >= 1 && IsDigit(s[0]) && IsDigit(s[|s| - 1])
    ensures ok ==> forall i :: 0 <= i < |s| ==> IsDigit(s[i]) || s[i] == '.'
    ensures ok ==> forall i :: 0 <= i < |s| && s[i] == '.' ==> |s| - 3 <= i <= |s| - 2
    ensures ok ==> forall i, j :: 0 <= i < j < |s| && s[i] == '.' ==> s[j] != '.'
  {
    var n := LeadingDigits(s);
    n >= 1 && FractionPart(s[n..])
  }

  /** Any split into a digit prefix followed by a non-digit (or the end) is at the greedy point. */
  lemma {:induction false} DigitRunIsGreedy(s: string, k: nat)
    requires k <= |s| && AllDigits(s[..k])
    requires k < |s| ==> !IsDigit(s[k])
    ensures k == LeadingDigits(s)
  {
    if k > 0 {
      assert s[0] == s[..k][0];
      var t := s[1..][..k - 1];
      assert AllDigits(t) by {
        forall i | 0 <= i < |t| ensures IsDigit(t[i]) {
          assert t[i] == s[..k][i + 1];
        }
      }
      assert k - 1 < |s[1..]| ==> s[1..][k - 1] == s[k];
      DigitRunIsGreedy(s[1..], k - 1);
    } else if s != [] {
      assert !IsDigit(s[0]);
    }
  }

  /** The matcher accepts exactly the language of the pattern. */
  lemma IsDecimalIffMatchesPattern(s: string)
    ensures IsDecimal(s) <==> MatchesPattern(s)
  {
    if IsDecimal(s) {
      var n := LeadingDigits(s);
      assert 1 <= n <= |s| && AllDigits(s[..n]) && FractionPart(s[n..]);
    }
    if MatchesPattern(s) {
      var k :| 1 <= k <= |s| && AllDigits(s[..k]) && FractionPart(s[k..]);
      if k < |s| {
        assert s[k] == s[k..][0];
      }
      DigitRunIsGreedy(s, k);
    }
  }

  /** Prices the pattern accepts. */
  lemma AcceptedExamples()
    ensures IsDecimal("19.99") && IsDecimal("5") && IsDecimal("0.5") && IsDecimal("120")
  {
    assert LeadingDigits("19.99") == 2 by { DigitRunIsGreedy("19.99", 2); }
    assert LeadingDigits("0.5") == 1 by { DigitRunIsGreedy("0.5", 1); }
    assert LeadingDigits("5") == 1 by { DigitRunIsGreedy("5", 1); }
    assert LeadingDigits("120") == 3 by { DigitRunIsGreedy("120", 3); }
  }

  /** Prices the pattern rejects: empty, no integer part, three decimals, a sign, a bare point, a comma, a space. */
  lemma RejectedExamples()
    ensures !IsDecimal("") && !IsDecimal(".5") && !IsDecimal("1.234") && !IsDecimal("-1")
    ensures !IsDecimal("1.") && !IsDecimal("1,50") && !IsDecimal(" 5")
  {
    assert LeadingDigits("1.234") == 1 by { DigitRunIsGreedy("1.234", 1); }
    assert LeadingDigits("1.") == 1 by { DigitRunIsGreedy("1.", 1); }
    assert LeadingDigits("1,50") == 1 by { DigitRunIsGreedy("1,50", 1); }
  }
}
