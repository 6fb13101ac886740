/**
 * Text-level helpers of the game engine: the `exp(\d+)` and `tm(\d.+)`
 * pattern searches that pull a reward or a cost out of an entry name, the
 * reading of the captured text as an exact decimal, the `in` substring test
 * used for the win marker, and the `isalpha`/`isdigit` tests applied to the
 * player's input. Characters are restricted to ASCII digits and letters.
 */
module Tokens {

  datatype Option<T> = None | Some(value: T)

  predicate IsDigit(c: char) { '0' <= c <= '9' }

  predicate IsLetter(c: char) { 'a' <= c <= 'z' || 'A' <= c <= 'Z' }

  predicate AllDigits(s: string) { forall i :: 0 <= i < |s| ==> IsDigit(s[i]) }

  /** Python's `str.isdigit()`: non-empty and made of digits only. */
  predicate IsDigits(s: string) { |s| > 0 && AllDigits(s) }

  /** Python's `str.isalpha()`: non-empty and made of letters only. */
  predicate IsAlpha(s: string) { |s| > 0 && forall i :: 0 <= i < |s| ==> IsLetter(s[i]) }

  /** No string is both alphabetic and numeric, so the guard
      `not choice.isalpha() or not choice.isdigit()` holds for every choice. */
  lemma AlphaAndDigitsExclusive(s: string)
    ensures !IsAlpha(s) || !IsDigits(s)
  {
    if |s| > 0 {
      assert IsLetter(s[0]) ==> !IsDigit(s[0]);
    }
  }

  // ---------------------------------------------------------------------
  // Digit strings and their values

  function DigitValue(c: char): (d: nat)
    requires IsDigit(c)
    ensures d < 10
  {
    c as int - '0' as int
  }

  function DigitChar(d: nat): (c: char)
    requires d < 10
    ensures IsDigit(c) && DigitValue(c) == d
  {
    ('0' as int + d) as char
  }

  /** The natural number a string of decimal digits denotes (most significant first). */
  function DigitsValue(s: string): nat
    requires AllDigits(s)
  {
    if s == [] then 0 else DigitsValue(s[..|s| - 1]) * 10 + DigitValue(s[|s| - 1])
  }

  function Pow10(n: nat): (p: nat)
    ensures p > 0
  {
    if n == 0 then 1 else 10 * Pow10(n - 1)
  }

  /** A digit string of length n denotes less than 10^n. */
  lemma {:induction false} DigitsValueBound(s: string)
    requires AllDigits(s)
    ensures DigitsValue(s) < Pow10(|s|)
  {
    if s != [] {
      DigitsValueBound(s[..|s| - 1]);
    }
  }

  /** The shortest decimal spelling of a natural number. */
  function NatToDigits(n: nat): (s: string)
    ensures IsDigits(s)
  {
    if n < 10 then [DigitChar(n)] else NatToDigits(n / 10) + [DigitChar(n % 10)]
  }

  /** Reading back the spelling of n gives n. */
  lemma {:induction false} DigitsRoundTrip(n: nat)
    ensures DigitsValue(NatToDigits(n)) == n
  {
    if n >= 10 {
      var s := NatToDigits(n);
      assert s[..|s| - 1] == NatToDigits(n / 10);
      DigitsRoundTrip(n / 10);
    }
  }

  /** Length of the maximal run of digits starting at position i. */
  function DigitRun(s: string, i: nat): (n: nat)
    requires i <= |s|
    ensures i + n <= |s|
    ensures forall k :: i <= k < i + n ==> IsDigit(s[k])
    ensures i + n == |s| || !IsDigit(s[i + n])
    decreases |s| - i
  {
    if i < |s| && IsDigit(s[i]) then 1 + DigitRun(s, i + 1) else 0
  }

  /** The digit run from i ends at m when s[i..m] are digits and s[m] is not. */
  lemma {:induction false} DigitRunEndsAt(s: string, i: nat, m: nat)
    requires i <= m <= |s|
    requires forall k :: i <= k < m ==> IsDigit(s[k])
    requires m == |s| || !IsDigit(s[m])
    ensures DigitRun(s, i) == m - i
    decreases m - i
  {
    if i < m {
      DigitRunEndsAt(s, i + 1, m);
    }
  }

  // ---------------------------------------------------------------------
  // Decimal(text) for the texts the engine feeds it

  /**
   * Python's `Decimal(t)` for texts of the form digits, optionally followed
   * by '.' and more digits; every other text is refused (`None`), where
   * Python raises `InvalidOperation`.
   */
  function ReadDecimal(t: string): (r: Option<real>)
    ensures r.Some? ==> r.value >= 0.0
  {
    var n := DigitRun(t, 0);
    if n == 0 then None
    else if n == |t| then Some(DigitsValue(t) as real)
    else if t[n] != '.' || !AllDigits(t[n + 1..]) then None
    else Some(DigitsValue(t[..n]) as real + Fraction(t[n + 1..]))
  }

  /** The value of the digits f written after a decimal point: f / 10^|f|. */
  function Fraction(f: string): real
    requires AllDigits(f)
  {
    DigitsValue(f) as real / Pow10(|f|) as real
  }

  /** A text Decimal accepts starts with a digit, holds digits and at most one '.'. */
  lemma ReadDecimalShape(t: string)
    requires ReadDecimal(t).Some?
    ensures |t| > 0 && IsDigit(t[0])
    ensures forall i :: 0 <= i < |t| ==> IsDigit(t[i]) || t[i] == '.'
    ensures forall i, j :: 0 <= i < j < |t| && t[i] == '.' ==> t[j] != '.'
  {
    var n := DigitRun(t, 0);
    if n < |t| {
      assert t[n] == '.';
      forall i | n < i < |t| ensures IsDigit(t[i]) {
        assert t[i] == t[n + 1..][i - n - 1];
      }
    }
  }

  /**
   * Any digit string reads back exactly as its value, leading zeros
   * included ("007" reads as 7).
   */
  lemma ReadDigits(w: string)
    requires IsDigits(w)
    ensures ReadDecimal(w) == Some(DigitsValue(w) as real)
  {
    DigitRunEndsAt(w, 0, |w|);
  }

  /** A whole number's shortest spelling reads back as that number. */
  lemma ReadNatSpelling(a: nat)
    ensures ReadDecimal(NatToDigits(a)) == Some(a as real)
  {
    ReadDigits(NatToDigits(a));
    DigitsRoundTrip(a);
  }

  /** The fractional part of a decimal is below one. */
  lemma FractionBelowOne(f: string)
    requires AllDigits(f)
    ensures 0.0 <= Fraction(f) < 1.0
  {
    DigitsValueBound(f);
    RatioBelowOne(DigitsValue(f) as real, Pow10(|f|) as real);
  }

  lemma RatioBelowOne(x: real, q: real)
    requires 0.0 <= x < q
    ensures 0.0 <= x / q < 1.0
  {
    assert x / q * q == x;
  }

  /**
   * `w.f`, for any digit strings w (non-empty, leading zeros allowed) and f
   * (possibly empty), reads back exactly as w's value plus f / 10^|f|.
   */
  lemma ReadDigitsFraction(w: string, f: string)
    requires IsDigits(w) && AllDigits(f)
    ensures ReadDecimal(w + "." + f) == Some(DigitsValue(w) as real + Fraction(f))
  {
    var t := w + "." + f;
    forall k | 0 <= k < |w| ensures IsDigit(t[k]) { assert t[k] == w[k]; }
    assert t[|w|] == '.';
    DigitRunEndsAt(t, 0, |w|);
    assert t[..|w|] == w;
    assert t[|w| + 1..] == f;
  }

  // ---------------------------------------------------------------------
  // The two patterns searched in entry names

  /** `exp(\d+)` and `tm(\d.+)`; in the latter `.` is any character but a newline. */
  datatype Pattern = ExpPattern | TmPattern

  /** The pattern can start matching at position i. */
  predicate MatchesAt(p: Pattern, s: string, i: nat)
  {
    match p
    case ExpPattern => i + 4 <= |s| && s[i..i + 3] == "exp" && IsDigit(s[i + 3])
    case TmPattern => i + 4 <= |s| && s[i..i + 2] == "tm" && IsDigit(s[i + 2]) && s[i + 3] != '\n'
  }

  /** Where the captured group starts when the match starts at i. */
  function GroupStart(p: Pattern, i: nat): nat
  {
    match p
    case ExpPattern => i + 3
    case TmPattern => i + 2
  }

  /** First newline at or after j, or the end of s. */
  function LineEnd(s: string, j: nat): (e: nat)
    requires j <= |s|
    ensures j <= e <= |s|
    ensures e == |s| || s[e] == '\n'
    ensures forall k :: j <= k < e ==> s[k] != '\n'
    decreases |s| - j
  {
    if j == |s| || s[j] == '\n' then j else LineEnd(s, j + 1)
  }

  /** Where the greedy group ends when the match starts at i. */
  function GroupEnd(p: Pattern, s: string, i: nat): (e: nat)
    requires MatchesAt(p, s, i)
    ensures GroupStart(p, i) < e <= |s|
  {
    match p
    case ExpPattern => i + 3 + DigitRun(s, i + 3)
    case TmPattern => LineEnd(s, i + 3)
  }

  /** `re.search`: the leftmost position at or after `from` where p matches. */
  function Search(p: Pattern, s: string, from: nat): (r: Option<nat>)
    requires from <= |s|
    ensures r.Some? ==> from <= r.value && MatchesAt(p, s, r.value)
    ensures r.Some? ==> forall j :: from <= j < r.value ==> !MatchesAt(p, s, j)
    ensures r.None? ==> forall j :: from <= j ==> !MatchesAt(p, s, j)
    decreases |s| - from
  {
    if from + 4 > |s| then None
    else if MatchesAt(p, s, from) then Some(from)
    else Search(p, s, from + 1)
  }

  /** `re.search(p, s)[1]`: the first group of the leftmost match, if any. */
  function Group(p: Pattern, s: string): (r: Option<string>)
    ensures r.Some? <==> exists i: nat :: MatchesAt(p, s, i)
  {
    match Search(p, s, 0)
    case None => None
    case Some(i) => Some(s[GroupStart(p, i)..GroupEnd(p, s, i)])
  }

  /**
   * The `exp` group comes from the leftmost match and is the maximal
   * non-empty digit run after its "exp".
   */
  lemma ExpGroupSpec(s: string) returns (i: nat)
    requires Group(ExpPattern, s).Some?
    ensures MatchesAt(ExpPattern, s, i) && forall j :: 0 <= j < i ==> !MatchesAt(ExpPattern, s, j)
    ensures var g := Group(ExpPattern, s).value;
      IsDigits(g) && i + 3 + |g| <= |s| && g == s[i + 3..i + 3 + |g|] &&
      (i + 3 + |g| == |s| || !IsDigit(s[i + 3 + |g|]))
  {
    i := Search(ExpPattern, s, 0).value;
    var g := Group(ExpPattern, s).value;
    assert forall k :: 0 <= k < |g| ==> g[k] == s[i + 3 + k];
  }

  /**
   * The `tm` group comes from the leftmost match, starts with the digit
   * after its "tm", runs to the end of the line and has at least two
   * characters.
   */
  lemma TmGroupSpec(s: string) returns (i: nat)
    requires Group(TmPattern, s).Some?
    ensures MatchesAt(TmPattern, s, i) && forall j :: 0 <= j < i ==> !MatchesAt(TmPattern, s, j)
    ensures var g := Group(TmPattern, s).value;
      |g| >= 2 && IsDigit(g[0]) && '\n' !in g && i + 2 + |g| <= |s| &&
      g == s[i + 2..i + 2 + |g|] && (i + 2 + |g| == |s| || s[i + 2 + |g|] == '\n')
  {
    i := Search(TmPattern, s, 0).value;
    var g := Group(TmPattern, s).value;
    assert forall k :: 0 <= k < |g| ==> g[k] == s[i + 2 + k];
  }

  /**
   * The experience reward of an entry name: `Decimal(re.search(r'exp(\d+)', name)[1])`.
   * The group is all digits, so the reward exists exactly when the pattern
   * matches and is then the digits' value.
   */
  function ExpValue(name: string): (r: Option<real>)
    ensures r.Some? <==> Group(ExpPattern, name).Some?
    ensures r.Some? ==>
      AllDigits(Group(ExpPattern, name).value) && r.value == DigitsValue(Group(ExpPattern, name).value) as real
  {
    match Group(ExpPattern, name)
    case None => None
    case Some(g) =>
      ExpGroupDigits(name);
      ReadDigits(g);
      ReadDecimal(g)
  }

  lemma ExpGroupDigits(name: string)
    requires Group(ExpPattern, name).Some?
    ensures IsDigits(Group(ExpPattern, name).value)
  {
    var i := ExpGroupSpec(name);
  }

  /**
   * The time cost of an entry name: `Decimal(re.search(r'tm(\d.+)', name)[1])`.
   * A cost exists exactly when the pattern matches and its group, of at
   * least two characters, is a decimal; it is never negative.
   */
  function TmValue(name: string): (r: Option<real>)
    ensures r.Some? <==> Group(TmPattern, name).Some? && ReadDecimal(Group(TmPattern, name).value).Some?
    ensures r.Some? ==> |Group(TmPattern, name).value| >= 2 && r.value >= 0.0
  {
    match Group(TmPattern, name)
    case None => None
    case Some(g) =>
      TmGroupLength(name);
      ReadDecimal(g)
  }

  /**
   * The cost of an entry whose `tm` group is digits w, or w '.' f, is
   * exactly w's value plus f / 10^|f|.
   */
  lemma TmCostReads(name: string, w: string, f: string)
    requires IsDigits(w) && AllDigits(f)
    ensures Group(TmPattern, name) == Some(w) ==> TmValue(name) == Some(DigitsValue(w) as real)
    ensures Group(TmPattern, name) == Some(w + "." + f) ==>
      TmValue(name) == Some(DigitsValue(w) as real + Fraction(f))
  {
    ReadDigits(w);
    ReadDigitsFraction(w, f);
  }

  lemma TmGroupLength(name: string)
    requires Group(TmPattern, name).Some?
    ensures |Group(TmPattern, name).value| >= 2
  {
    var i := TmGroupSpec(name);
  }

  /**
   * A one-digit cost is never read, because `tm(\d.+)` needs two characters
   * after "tm": "Rat_exp10_tm5" has reward 10 and no time cost.
   */
  lemma OneDigitCostUnread()
    ensures ExpValue("Rat_exp10_tm5") == Some(10.0)
    ensures TmValue("Rat_exp10_tm5") == None
  {
    var s := "Rat_exp10_tm5";
    forall i: nat ensures !MatchesAt(TmPattern, s, i) {
      if i + 4 <= |s| {
        assert s[i + 1] != 'm';
        assert s[i..i + 2][1] == s[i + 1];
      }
    }
    assert s[4..7] == "exp";
    assert MatchesAt(ExpPattern, s, 4);
    forall i: nat | i < 4 ensures !MatchesAt(ExpPattern, s, i) {
      assert s[i..i + 3][0] == s[i];
    }
    assert Search(ExpPattern, s, 4) == Some(4);
    assert Search(ExpPattern, s, 3) == Some(4);
    assert Search(ExpPattern, s, 2) == Some(4);
    assert Search(ExpPattern, s, 1) == Some(4);
    assert Search(ExpPattern, s, 0) == Some(4);
    DigitRunEndsAt(s, 7, 9);
    assert GroupEnd(ExpPattern, s, 4) == 9;
    assert s[7..9] == "10";
    assert Group(ExpPattern, s) == Some("10");
    DigitRunEndsAt("10", 0, 2);
    assert "10"[..1] == "1";
    assert DigitsValue("10") == 10;
  }

  // ---------------------------------------------------------------------
  // Substring test

  /** Python's `sub in s` on strings. */
  predicate HasInfix(s: string, sub: string)
    decreases |s|
  {
    |sub| <= |s| && (s[..|sub|] == sub || (|s| > 0 && HasInfix(s[1..], sub)))
  }

  /** `sub` occurs in s at position i. */
  predicate InfixAt(s: string, sub: string, i: nat)
  {
    i + |sub| <= |s| && s[i..i + |sub|] == sub
  }

  lemma {:induction false} HasInfixIff(s: string, sub: string)
    ensures HasInfix(s, sub) <==> exists i: nat :: InfixAt(s, sub, i)
    decreases |s|
  {
    if |sub| <= |s| && s[..|sub|] == sub {
      assert InfixAt(s, sub, 0);
    } else if |sub| <= |s| && |s| > 0 {
      HasInfixIff(s[1..], sub);
      if HasInfix(s[1..], sub) {
        var i: nat :| InfixAt(s[1..], sub, i);
        assert s[i + 1..i + 1 + |sub|] == s[1..][i..i + |sub|];
        assert InfixAt(s, sub, i + 1);
      }
      if exists i: nat :: InfixAt(s, sub, i) {
        var i: nat :| InfixAt(s, sub, i);
        assert i > 0;
        assert s[1..][i - 1..i - 1 + |sub|] == s[i..i + |sub|];
        assert InfixAt(s[1..], sub, i - 1);
      }
    }
  }
}
