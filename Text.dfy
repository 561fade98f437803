/** Text primitives the pipeline is built on: Python's substring test (`in`),
    `str.lower`/`str.upper` restricted to the characters the model covers,
    `re.findall(r'\d+', ...)` over ASCII digits, `int(...)` of a digit run,
    and decimal formatting of a natural number (the `{i+1}` of an f-string). */
module Text {

  // ---------------------------------------------------------------------------
  // Prefixes and substrings
  // ---------------------------------------------------------------------------

  predicate StartsWith(s: string, prefix: string) {
    |prefix| <= |s| && s[..|prefix|] == prefix
  }

  /** Python's `pat in s`: does `pat` occur somewhere in `s`? */
  predicate Contains(s: string, pat: string)
    decreases |s|
  {
    StartsWith(s, pat) || (|s| > 0 && Contains(s[1..], pat))
  }

  /** `pat` occurs in `s` starting at position `i`. */
  predicate OccursAt(s: string, pat: string, i: int) {
    0 <= i <= |s| - |pat| && s[i..i + |pat|] == pat
  }

  /** `Contains` is exactly "there is a position where `pat` occurs". */
  lemma {:induction false} ContainsIff(s: string, pat: string)
    ensures Contains(s, pat) <==> exists i :: OccursAt(s, pat, i)
    decreases |s|
  {
    if StartsWith(s, pat) {
      assert OccursAt(s, pat, 0);
    } else if |s| == 0 {
    } else {
      ContainsIff(s[1..], pat);
      if Contains(s[1..], pat) {
        var i :| OccursAt(s[1..], pat, i);
        assert s[i + 1..i + 1 + |pat|] == s[1..][i..i + |pat|];
        assert OccursAt(s, pat, i + 1);
      } else {
        forall i | OccursAt(s, pat, i)
          ensures false
        {
          if i > 0 {
            var t := s[1..];
            assert forall k :: 0 <= k < |t| ==> t[k] == s[k + 1];
            assert t[i - 1..i - 1 + |pat|] == s[i..i + |pat|];
            assert OccursAt(s[1..], pat, i - 1);
          }
        }
      }
    }
  }

  /** Whatever surrounds it, a string contains itself. */
  lemma ContainsInfix(a: string, pat: string, b: string)
    ensures Contains(a + pat + b, pat)
  {
    var s := a + pat + b;
    assert s[|a|..|a| + |pat|] == pat;
    assert OccursAt(s, pat, |a|);
    ContainsIff(s, pat);
  }

  /** An occurrence survives any extension on either side. */
  lemma ContainsExtend(a: string, s: string, b: string, pat: string)
    requires Contains(s, pat)
    ensures Contains(a + s + b, pat)
  {
    ContainsIff(s, pat);
    var i :| OccursAt(s, pat, i);
    var t := a + s + b;
    assert t[|a| + i..|a| + i + |pat|] == s[i..i + |pat|];
    assert OccursAt(t, pat, |a| + i);
    ContainsIff(t, pat);
  }

  // ---------------------------------------------------------------------------
  // Case mapping
  // ---------------------------------------------------------------------------

  /** Upper-case letters whose lower-case form the model knows: ASCII A-Z and
      the Latin-1 letters U+00C0..U+00DE other than the sign U+00D7. */
  predicate IsUpper(c: char) {
    ('A' <= c <= 'Z') || ('\U{00C0}' <= c <= '\U{00DE}' && c != '\U{00D7}')
  }

  function LowerChar(c: char): (r: char)
    ensures !IsUpper(r)
    ensures !IsUpper(c) ==> r == c
    ensures IsUpper(c) ==> r as int == c as int + 32
  {
    if IsUpper(c) then (c as int + 32) as char else c
  }

  /** Python's `str.lower()`, on the characters `IsUpper` covers. */
  function Lower(s: string): (r: string)
    ensures |r| == |s|
    ensures forall i :: 0 <= i < |s| ==> r[i] == LowerChar(s[i])
  {
    seq(|s|, i requires 0 <= i < |s| => LowerChar(s[i]))
  }

  /** Lower-casing is idempotent, as `str.lower` is. */
  lemma LowerIdempotent(s: string)
    ensures Lower(Lower(s)) == Lower(s)
  {
  }

  /** No character the model lower-cases. */
  predicate LowerCase(s: string) {
    forall i :: 0 <= i < |s| ==> !IsUpper(s[i])
  }

  /** A lower-case text is its own lower-case form. */
  lemma LowerOfLowerCase(s: string)
    requires LowerCase(s)
    ensures Lower(s) == s
  {
  }

  /** Lower-casing commutes with taking a slice. */
  lemma LowerSlice(s: string, i: int, j: int)
    requires 0 <= i <= j <= |s|
    ensures Lower(s)[i..j] == Lower(s[i..j])
  {
  }

  /** An occurrence in a text is an occurrence, lower-cased, in its lower-cased form. */
  lemma ContainsLower(s: string, pat: string)
    requires Contains(s, pat)
    ensures Contains(Lower(s), Lower(pat))
  {
    ContainsIff(s, pat);
    var i :| OccursAt(s, pat, i);
    LowerSlice(s, i, i + |pat|);
    assert OccursAt(Lower(s), Lower(pat), i);
    ContainsIff(Lower(s), Lower(pat));
  }

  /** Python's `str.upper()` on ASCII letters (all the model applies it to). */
  function UpperChar(c: char): (r: char)
    ensures 'a' <= c <= 'z' ==> r as int == c as int - 32 && 'A' <= r <= 'Z'
    ensures !('a' <= c <= 'z') ==> r == c
  {
    if 'a' <= c <= 'z' then (c as int - 32) as char else c
  }

  function Upper(s: string): (r: string)
    ensures |r| == |s|
    ensures forall i :: 0 <= i < |s| ==> r[i] == UpperChar(s[i])
  {
    seq(|s|, i requires 0 <= i < |s| => UpperChar(s[i]))
  }

  // ---------------------------------------------------------------------------
  // Decimal digits
  // ---------------------------------------------------------------------------

  predicate IsDigit(c: char) {
    '0' <= c <= '9'
  }

  predicate AllDigits(s: string) {
    forall i :: 0 <= i < |s| ==> IsDigit(s[i])
  }

  predicate NoDigits(s: string) {
    forall i :: 0 <= i < |s| ==> !IsDigit(s[i])
  }

  /** Python's `int(ds)` for a string of decimal digits (leading zeros allowed). */
  function DigitsValue(ds: string): nat
    requires AllDigits(ds)
  {
    if ds == [] then 0
    else DigitsValue(ds[..|ds| - 1]) * 10 + (ds[|ds| - 1] as int - '0' as int)
  }

  function DigitChar(d: nat): (c: char)
    requires d < 10
    ensures IsDigit(c) && c as int - '0' as int == d
  {
    ('0' as int + d) as char
  }

  /** Decimal rendering of `n`, as f-string interpolation `{n}` prints it. */
  function Decimal(n: nat): (r: string)
    ensures |r| > 0 && AllDigits(r)
    ensures |r| > 1 ==> r[0] != '0'
  {
    if n < 10 then [DigitChar(n)] else Decimal(n / 10) + [DigitChar(n % 10)]
  }

  /** Reading back a printed number gives the number: `int(str(n)) == n`. */
  lemma {:induction false} DecimalRoundTrip(n: nat)
    ensures DigitsValue(Decimal(n)) == n
  {
    if n >= 10 {
      DecimalRoundTrip(n / 10);
      var r := Decimal(n);
      assert r[..|r| - 1] == Decimal(n / 10);
    }
  }

  /** Distinct numbers print differently, so `main_1`, `main_2`, ... are distinct names. */
  lemma DecimalInjective(m: nat, n: nat)
    requires m != n
    ensures Decimal(m) != Decimal(n)
  {
    DecimalRoundTrip(m);
    DecimalRoundTrip(n);
  }

  /** Length of the longest prefix of `s` made of digits. */
  function DigitPrefixLength(s: string): (k: nat)
    ensures k <= |s|
    ensures AllDigits(s[..k])
    ensures k == |s| || !IsDigit(s[k])
    decreases |s|
  {
    if s != [] && IsDigit(s[0]) then
      var k := 1 + DigitPrefixLength(s[1..]);
      assert s[..k] == [s[0]] + s[1..][..k - 1];
      k
    else 0
  }

  /** `re.findall(r'\d+', s)`: every maximal run of digits, left to right. */
  function DigitRuns(s: string): (runs: seq<string>)
    ensures forall j :: 0 <= j < |runs| ==> |runs[j]| > 0 && AllDigits(runs[j])
    decreases |s|
  {
    if s == [] then []
    else if !IsDigit(s[0]) then DigitRuns(s[1..])
    else
      var k := DigitPrefixLength(s);
      [s[..k]] + DigitRuns(s[k..])
  }

  /** `s` and `t` have their digits at the same places, and the same digits there. */
  predicate SameDigits(s: string, t: string) {
    |s| == |t|
    && forall i :: 0 <= i < |s| ==> (IsDigit(s[i]) <==> IsDigit(t[i])) && (IsDigit(s[i]) ==> s[i] == t[i])
  }

  lemma SameDigitsTail(s: string, t: string, k: nat)
    requires SameDigits(s, t) && k <= |s|
    ensures SameDigits(s[k..], t[k..])
  {
    assert forall i :: 0 <= i < |s| - k ==> s[k..][i] == s[i + k] && t[k..][i] == t[i + k];
  }

  lemma {:induction false} SameDigitsPrefix(s: string, t: string)
    requires SameDigits(s, t)
    ensures DigitPrefixLength(s) == DigitPrefixLength(t)
    ensures s[..DigitPrefixLength(s)] == t[..DigitPrefixLength(s)]
    decreases |s|
  {
    if s != [] && IsDigit(s[0]) {
      SameDigitsTail(s, t, 1);
      SameDigitsPrefix(s[1..], t[1..]);
      var k := DigitPrefixLength(s);
      assert s[..k] == [s[0]] + s[1..][..k - 1];
      assert t[..k] == [t[0]] + t[1..][..k - 1];
    }
  }

  /** The digit runs of a text depend only on where its digits are and what they are. */
  lemma {:induction false} SameDigitsRuns(s: string, t: string)
    requires SameDigits(s, t)
    ensures DigitRuns(s) == DigitRuns(t)
    decreases |s|
  {
    if s == [] {
    } else if !IsDigit(s[0]) {
      SameDigitsTail(s, t, 1);
      SameDigitsRuns(s[1..], t[1..]);
    } else {
      SameDigitsPrefix(s, t);
      var k := DigitPrefixLength(s);
      SameDigitsTail(s, t, k);
      SameDigitsRuns(s[k..], t[k..]);
    }
  }

  /** Lower-casing touches no digit, so `findall` finds the same numbers before and after it. */
  lemma DigitRunsLower(s: string)
    ensures DigitRuns(Lower(s)) == DigitRuns(s)
  {
    assert SameDigits(Lower(s), s);
    SameDigitsRuns(Lower(s), s);
  }

  /** `s[i..j]` is a maximal run of digits with no digit before it: the first match of `\d+`. */
  ghost predicate FirstRunAt(s: string, i: int, j: int) {
    0 <= i < j <= |s| && NoDigits(s[..i]) && AllDigits(s[i..j]) && (j == |s| || !IsDigit(s[j]))
  }

  /** A leading non-digit shifts the first run one place to the right. */
  lemma FirstRunShift(s: string, i: int, j: int)
    requires s != [] && !IsDigit(s[0]) && FirstRunAt(s[1..], i, j)
    ensures FirstRunAt(s, i + 1, j + 1) && s[i + 1..j + 1] == s[1..][i..j]
  {
    assert s[..i + 1] == [s[0]] + s[1..][..i];
    assert s[i + 1..j + 1] == s[1..][i..j];
  }

  lemma NoDigitsCons(s: string)
    requires s != []
    ensures NoDigits(s) <==> !IsDigit(s[0]) && NoDigits(s[1..])
  {
    assert forall i :: 0 < i < |s| ==> s[i] == s[1..][i - 1];
  }

  /** `findall` finds nothing exactly when the text has no digit, and otherwise its
      first match is the first maximal digit run of the text. */
  lemma {:induction false} DigitRunsFirst(s: string)
    ensures DigitRuns(s) == [] <==> NoDigits(s)
    ensures DigitRuns(s) != [] ==>
      exists i, j :: FirstRunAt(s, i, j) && DigitRuns(s)[0] == s[i..j]
    decreases |s|
  {
    if s == [] {
    } else if !IsDigit(s[0]) {
      DigitRunsFirst(s[1..]);
      NoDigitsCons(s);
      if DigitRuns(s) != [] {
        var i, j :| FirstRunAt(s[1..], i, j) && DigitRuns(s[1..])[0] == s[1..][i..j];
        FirstRunShift(s, i, j);
      }
    } else {
      var k := DigitPrefixLength(s);
      assert s[..0] == [];
      assert FirstRunAt(s, 0, k) && DigitRuns(s)[0] == s[0..k];
    }
  }
}
