/** The key under which an effect is filed: its id up to the dash, as a number printed without leading zeros. */
module JoinKey {
  import opened Seqs

  predicate IsDecimal(s: string) {
    forall i :: 0 <= i < |s| ==> '0' <= s[i] <= '9'
  }

  /** Decimal digits without a superfluous zero in front. */
  predicate IsCanonical(s: string) {
    IsDecimal(s) && s != "" && (s[0] == '0' ==> |s| == 1)
  }

  /** `split('-')[0]`: everything before the first dash, or the whole string. */
  function BeforeDash(s: string): string {
    if s == "" || s[0] == '-' then "" else [s[0]] + BeforeDash(s[1..])
  }

  function DigitValue(c: char): nat {
    if '0' <= c <= '9' then (c - '0') as int else 0
  }

  function DigitChar(d: nat): char
    requires d < 10
  {
    '0' + d as char
  }

  /** The number that a decimal string denotes; the empty string denotes 0, as it does for `BigInt`. */
  function ParseNat(s: string): nat {
    if s == "" then 0 else 10 * ParseNat(s[..|s| - 1]) + DigitValue(s[|s| - 1])
  }

  function PrintNat(n: nat): string {
    if n < 10 then [DigitChar(n)] else PrintNat(n / 10) + [DigitChar(n % 10)]
  }

  function StripZeros(s: string): string {
    PrintNat(ParseNat(s))
  }

  function EffectKey(id: string): string {
    StripZeros(BeforeDash(id))
  }

  function Zeros(k: nat): string {
    seq(k, _ => '0')
  }

  lemma {:induction false} ParsePrint(n: nat)
    ensures ParseNat(PrintNat(n)) == n
    ensures IsCanonical(PrintNat(n)) && (PrintNat(n)[0] == '0' ==> n == 0)
  {
    if n >= 10 {
      ParsePrint(n / 10);
      var p := PrintNat(n / 10);
      assert (p + [DigitChar(n % 10)])[..|p|] == p;
    }
  }

  lemma PrintStep(n: nat, d: nat)
    requires n >= 1 && d < 10
    ensures PrintNat(10 * n + d) == PrintNat(n) + [DigitChar(d)]
  {
    assert (10 * n + d) / 10 == n && (10 * n + d) % 10 == d;
  }

  lemma CanonicalFront(s: string)
    requires IsCanonical(s) && |s| > 1
    ensures IsCanonical(s[..|s| - 1]) && s[..|s| - 1][0] != '0'
    ensures s == s[..|s| - 1] + [DigitChar(DigitValue(s[|s| - 1]))]
  {
    FrontLast(s);
  }

  lemma PrintDigit(s: string)
    requires IsCanonical(s) && |s| == 1
    ensures PrintNat(ParseNat(s)) == s && (s[0] != '0' ==> ParseNat(s) >= 1)
  {
    assert ParseNat(s[..0]) == 0;
  }

  lemma {:induction false} PrintParse(s: string)
    requires IsCanonical(s)
    ensures PrintNat(ParseNat(s)) == s
    ensures s[0] != '0' ==> ParseNat(s) >= 1
  {
    if |s| == 1 {
      PrintDigit(s);
    } else {
      CanonicalFront(s);
      PrintParse(s[..|s| - 1]);
      PrintStep(ParseNat(s[..|s| - 1]), DigitValue(s[|s| - 1]));
    }
  }

  /** Exactly the canonical numerals are their own keys. */
  lemma StripFixes(s: string)
    requires IsDecimal(s)
    ensures StripZeros(s) == s <==> IsCanonical(s)
  {
    ParsePrint(ParseNat(s));
    if IsCanonical(s) { PrintParse(s); }
  }

  lemma StripIdempotent(s: string)
    requires IsDecimal(s)
    ensures StripZeros(StripZeros(s)) == StripZeros(s)
  {
    ParsePrint(ParseNat(s));
  }

  /** Two ids meet under one key exactly when they denote the same number. */
  lemma StripSeparates(s: string, t: string)
    requires IsDecimal(s) && IsDecimal(t)
    ensures StripZeros(s) == StripZeros(t) <==> ParseNat(s) == ParseNat(t)
  {
    ParsePrint(ParseNat(s));
    ParsePrint(ParseNat(t));
  }

  lemma {:induction false} ParsePadded(k: nat, s: string)
    ensures ParseNat(Zeros(k) + s) == ParseNat(s)
  {
    var z := Zeros(k) + s;
    if s != "" {
      assert z[..|z| - 1] == Zeros(k) + s[..|s| - 1];
      ParsePadded(k, s[..|s| - 1]);
    } else if k > 0 {
      assert z[..|z| - 1] == Zeros(k - 1) + s;
      ParsePadded(k - 1, s);
    }
  }

  /** Any zero-padding of a canonical numeral is undone. */
  lemma StripUndoesPadding(k: nat, s: string)
    requires IsCanonical(s)
    ensures StripZeros(Zeros(k) + s) == s
  {
    ParsePadded(k, s);
    PrintParse(s);
  }

  lemma {:induction false} BeforeDashOf(s: string, t: string)
    requires '-' !in s
    ensures BeforeDash(s + "-" + t) == s
  {
    if s == "" {
      assert "" + "-" + t == "-" + t;
    } else {
      assert (s + "-" + t)[1..] == s[1..] + "-" + t;
      BeforeDashOf(s[1..], t);
    }
  }

  /**
   * An effect whose id is the padded id of an operation, a dash and a counter is filed under that operation's
   * canonical id, and under the id of no other operation.
   */
  lemma EffectFoundUnderItsOperation(k: nat, opId: string, counter: string, other: string)
    requires IsCanonical(opId) && IsCanonical(other)
    ensures EffectKey(Zeros(k) + opId + "-" + counter) == opId
    ensures EffectKey(Zeros(k) + opId + "-" + counter) == other <==> ParseNat(other) == ParseNat(opId)
  {
    BeforeDashOf(Zeros(k) + opId, counter);
    StripUndoesPadding(k, opId);
    PrintParse(opId);
    PrintParse(other);
  }
}
