/**
 * The few Python `str` operations the container manager and its helpers rely on:
 * substring search (`in`), `replace`, the first-occurrence replacement that a sed
 * substitution without the `g` flag performs, `strip`, `str(int)`, `zfill` and the
 * inverse of `str(int)` used to state round trips.
 */
module Strings {

  datatype Option<T> = None | Some(value: T)

  /** `pat` occurs in `s` starting at index `i`. */
  predicate OccursAt(s: string, pat: string, i: nat)
  {
    i + |pat| <= |s| && s[i..i + |pat|] == pat
  }

  /** No window of `s` equals `q`. */
  ghost predicate Absent(s: string, q: string)
  {
    forall i: nat :: !OccursAt(s, q, i)
  }

  /** Windows of `s[1..]` are the windows of `s` one position further right. */
  lemma OccursShift(s: string, pat: string)
    requires |s| > 0
    ensures forall j: nat :: OccursAt(s[1..], pat, j) <==> OccursAt(s, pat, j + 1)
    ensures forall j: nat :: j > 0 ==> (OccursAt(s, pat, j) <==> OccursAt(s[1..], pat, j - 1))
  {
    forall j: nat ensures OccursAt(s[1..], pat, j) <==> OccursAt(s, pat, j + 1) {
      if j + 1 + |pat| <= |s| {
        var w1, w2 := s[j + 1..j + 1 + |pat|], s[1..][j..j + |pat|];
        assert |w1| == |w2|;
        assert forall k :: 0 <= k < |w1| ==> w1[k] == w2[k];
        assert w1 == w2;
      }
    }
  }

  /** Windows of a concatenation to the right of its first part are windows of the second. */
  lemma OccursConcat(a: string, b: string, pat: string)
    ensures forall j: nat :: OccursAt(b, pat, j) <==> OccursAt(a + b, pat, |a| + j)
    ensures forall j: nat :: j >= |a| ==> (OccursAt(a + b, pat, j) <==> OccursAt(b, pat, j - |a|))
  {
    forall j: nat ensures OccursAt(b, pat, j) <==> OccursAt(a + b, pat, |a| + j) {
      if j + |pat| <= |b| {
        var w1, w2 := (a + b)[|a| + j..|a| + j + |pat|], b[j..j + |pat|];
        assert |w1| == |w2|;
        assert forall k :: 0 <= k < |w1| ==> w1[k] == w2[k];
        assert w1 == w2;
      }
    }
  }

  /** Python's `pat in s`. */
  predicate Contains(s: string, pat: string)
    decreases |s|
  {
    if |s| < |pat| then false
    else s[..|pat|] == pat || Contains(s[1..], pat)
  }

  lemma {:induction false} ContainsIffOccurs(s: string, pat: string)
    ensures Contains(s, pat) <==> !Absent(s, pat)
    decreases |s|
  {
    if |s| < |pat| {
      forall i: nat ensures !OccursAt(s, pat, i) { }
    } else if s[..|pat|] == pat {
      assert OccursAt(s, pat, 0);
    } else {
      ContainsIffOccurs(s[1..], pat);
      OccursShift(s, pat);
      if Contains(s[1..], pat) {
        var i: nat :| OccursAt(s[1..], pat, i);
        assert OccursAt(s, pat, i + 1);
      } else {
        assert !OccursAt(s, pat, 0);
        forall i: nat ensures !OccursAt(s, pat, i) {
          if i > 0 {
            assert !OccursAt(s[1..], pat, i - 1);
          }
        }
      }
    }
  }

  /** A pattern with a character `s` lacks does not occur in `s`. */
  lemma MissingCharNotContained(s: string, pat: string, k: nat)
    requires k < |pat| && pat[k] !in s
    ensures !Contains(s, pat)
  {
    ContainsIffOccurs(s, pat);
    forall i: nat ensures !OccursAt(s, pat, i) {
      if i + |pat| <= |s| {
        assert s[i..i + |pat|][k] == s[i + k];
      }
    }
  }

  /** `s + t` contains every pattern that `t` contains, so appending a block makes it present. */
  lemma ContainsAppended(s: string, t: string, pat: string)
    requires Contains(t, pat)
    ensures Contains(s + t, pat)
  {
    ContainsIffOccurs(t, pat);
    var i: nat :| OccursAt(t, pat, i);
    assert (s + t)[|s| + i..|s| + i + |pat|] == t[i..i + |pat|];
    assert OccursAt(s + t, pat, |s| + i);
    ContainsIffOccurs(s + t, pat);
  }

  /**
   * Python's `s.replace(pat, rep)`: every non-overlapping occurrence of `pat`, scanning
   * left to right, is replaced by `rep`.
   */
  function Replace(s: string, pat: string, rep: string): string
    requires |pat| > 0
    decreases |s|
  {
    if |s| < |pat| then s
    else if s[..|pat|] == pat then rep + Replace(s[|pat|..], pat, rep)
    else [s[0]] + Replace(s[1..], pat, rep)
  }

  /** Replacing a pattern that does not occur changes nothing. */
  lemma {:induction false} ReplaceAbsent(s: string, pat: string, rep: string)
    requires |pat| > 0 && Absent(s, pat)
    ensures Replace(s, pat, rep) == s
    decreases |s|
  {
    if |s| >= |pat| {
      assert !OccursAt(s, pat, 0);
      forall i: nat ensures !OccursAt(s[1..], pat, i) {
        if i + |pat| <= |s| - 1 {
          assert s[1..][i..i + |pat|] == s[i + 1..i + 1 + |pat|];
          assert !OccursAt(s, pat, i + 1);
        }
      }
      ReplaceAbsent(s[1..], pat, rep);
    }
  }

  /** Where the input starts with the pattern, the output starts with the replacement. */
  lemma ReplaceAtMatch(t: string, pat: string, rep: string)
    requires |pat| > 0 && |rep| > 0 && |t| >= |pat| && t[..|pat|] == pat
    ensures Replace(t, pat, rep)[0] == rep[0]
  {
  }

  /**
   * If the output of `Replace` starts with `m` characters none of which is `c`, and every
   * replacement text starts with `c`, then no replacement happened in those `m`
   * characters: they are copied from the input.
   */
  lemma {:induction false} ReplaceCleanPrefix(t: string, pat: string, rep: string, c: char, m: nat)
    requires |pat| > 0 && |rep| > 0 && rep[0] == c
    requires m <= |Replace(t, pat, rep)|
    requires forall j :: 0 <= j < m ==> Replace(t, pat, rep)[j] != c
    ensures m <= |t| && t[..m] == Replace(t, pat, rep)[..m]
    decreases |t|
  {
    if m == 0 || |t| < |pat| {
    } else if t[..|pat|] == pat {
      ReplaceAtMatch(t, pat, rep);
      assert false;
    } else {
      var r' := Replace(t[1..], pat, rep);
      assert Replace(t, pat, rep) == [t[0]] + r';
      forall j | 0 <= j < m - 1 ensures r'[j] != c {
        assert r'[j] == Replace(t, pat, rep)[j + 1];
      }
      ReplaceCleanPrefix(t[1..], pat, rep, c, m - 1);
      assert t[..m] == [t[0]] + t[1..][..m - 1];
    }
  }

  /** The conditions under which a replacement text `rep` cannot create the pattern `q`. */
  ghost predicate CannotCreate(rep: string, q: string)
  {
    |q| > 0 && |rep| >= |q| && rep[0] == q[0] &&
    (forall j :: 1 <= j < |rep| ==> rep[j] != q[0]) &&
    (forall j :: 1 <= j < |q| ==> q[j] != q[0]) &&
    rep[..|q|] != q
  }

  /**
   * After `Replace(s, pat, rep)` the pattern `q` does not occur, provided it did not occur
   * before (or it is the very pattern being replaced) and the replacement text cannot
   * create it: `q` and `rep` start with the same character, that character occurs nowhere
   * else in `q` or `rep`, and `rep` does not start with `q`.
   */
  lemma {:induction false} ReplaceAvoids(s: string, pat: string, rep: string, q: string)
    requires |pat| > 0 && CannotCreate(rep, q)
    requires q == pat || Absent(s, q)
    ensures Absent(Replace(s, pat, rep), q)
    decreases |s|
  {
    if |s| < |pat| {
      if q == pat {
        assert forall i: nat :: !OccursAt(s, q, i);
      }
    } else if s[..|pat|] == pat {
      ReplaceAvoidsAtMatch(s, pat, rep, q);
    } else {
      ReplaceAvoidsSkip(s, pat, rep, q);
    }
  }

  lemma {:induction false} ReplaceAvoidsAtMatch(s: string, pat: string, rep: string, q: string)
    requires |pat| > 0 && CannotCreate(rep, q)
    requires q == pat || Absent(s, q)
    requires |s| >= |pat| && s[..|pat|] == pat
    ensures Absent(Replace(s, pat, rep), q)
    decreases |s|, 0
  {
    var rest := s[|pat|..];
    OccursConcat(s[..|pat|], rest, q);
    assert s == s[..|pat|] + rest;
    ReplaceAvoids(rest, pat, rep, q);
    var r' := Replace(rest, pat, rep);
    var r := Replace(s, pat, rep);
    assert r == rep + r';
    OccursConcat(rep, r', q);
    forall i: nat ensures !OccursAt(r, q, i) {
      if i + |q| <= |r| && 0 < i < |rep| {
        assert r[i..i + |q|][0] == rep[i];
      } else if i == 0 {
        assert r[..|q|] == rep[..|q|];
      }
    }
  }

  lemma {:induction false} ReplaceAvoidsSkip(s: string, pat: string, rep: string, q: string)
    requires |pat| > 0 && CannotCreate(rep, q)
    requires q == pat || Absent(s, q)
    requires |s| >= |pat| && s[..|pat|] != pat
    ensures Absent(Replace(s, pat, rep), q)
    decreases |s|, 0
  {
    var rest := s[1..];
    OccursShift(s, q);
    ReplaceAvoids(rest, pat, rep, q);
    var r' := Replace(rest, pat, rep);
    var r := Replace(s, pat, rep);
    assert r == [s[0]] + r';
    OccursShift(r, q);
    assert r[1..] == r';
    if OccursAt(r, q, 0) {
      SkipStartsWith(s, pat, rep, q);
      assert false;
    }
  }

  /** If the output after a skipped first character starts with `q`, so did the input. */
  lemma SkipStartsWith(s: string, pat: string, rep: string, q: string)
    requires |pat| > 0 && CannotCreate(rep, q)
    requires |s| >= |pat| && s[..|pat|] != pat
    requires OccursAt(Replace(s, pat, rep), q, 0)
    ensures OccursAt(s, q, 0) && s[..|q|] == q
  {
    var rest := s[1..];
    var r' := Replace(rest, pat, rep);
    var r := Replace(s, pat, rep);
    assert r == [s[0]] + r';
    var n := |q| - 1;
    assert r[..|q|] == q;
    assert |r'| >= n;
    assert r'[..n] == q[1..] by {
      assert r[..|q|] == [s[0]] + r'[..n];
    }
    forall j | 0 <= j < n ensures r'[j] != q[0] {
      assert r'[j] == q[1..][j] == q[j + 1];
    }
    ReplaceCleanPrefix(rest, pat, rep, q[0], n);
    assert s[..|q|] == [s[0]] + rest[..n];
  }

  /** Index of the leftmost occurrence of `pat` in `s`, if any. */
  function IndexOf(s: string, pat: string): (r: Option<nat>)
    ensures r.Some? ==> OccursAt(s, pat, r.value)
    ensures r.Some? ==> forall j: nat :: j < r.value ==> !OccursAt(s, pat, j)
    ensures r.None? ==> Absent(s, pat)
    decreases |s|
  {
    if |s| < |pat| then None
    else if s[..|pat|] == pat then Some(0)
    else
      OccursShift(s, pat);
      match IndexOf(s[1..], pat)
      case None => None
      case Some(k) => Some(k + 1)
  }

  /**
   * sed's `s/pat/rep/` on one line (no `g` flag): only the leftmost occurrence is
   * replaced. The pattern and replacement are taken literally.
   */
  function ReplaceFirst(line: string, pat: string, rep: string): (r: string)
    ensures IndexOf(line, pat).None? ==> r == line
    ensures IndexOf(line, pat).Some? ==>
      var i := IndexOf(line, pat).value;
      |r| == |line| - |pat| + |rep| && r[..i] == line[..i] && r[i..i + |rep|] == rep &&
      r[i + |rep|..] == line[i + |pat|..]
  {
    match IndexOf(line, pat)
    case None => line
    case Some(i) => line[..i] + rep + line[i + |pat|..]
  }

  /** The characters Python's `str.strip()` removes (`str.isspace`). */
  predicate IsSpace(c: char)
  {
    c == ' ' || c == '\t' || c == '\n' || c == '\r' || c == '\U{0B}' || c == '\U{0C}' ||
    ('\U{1C}' <= c <= '\U{1F}') || c == '\U{85}' || c == '\U{A0}' || c == '\U{1680}' ||
    ('\U{2000}' <= c <= '\U{200A}') || c == '\U{2028}' || c == '\U{2029}' ||
    c == '\U{202F}' || c == '\U{205F}' || c == '\U{3000}'
  }

  function StripLeft(s: string): (r: string)
    ensures |r| <= |s| && r == s[|s| - |r|..]
    ensures r == [] || !IsSpace(r[0])
    ensures forall j :: 0 <= j < |s| - |r| ==> IsSpace(s[j])
  {
    if s != [] && IsSpace(s[0]) then StripLeft(s[1..]) else s
  }

  function StripRight(s: string): (r: string)
    ensures |r| <= |s| && r == s[..|r|]
    ensures r == [] || !IsSpace(r[|r| - 1])
    ensures forall j :: |r| <= j < |s| ==> IsSpace(s[j])
  {
    if s != [] && IsSpace(s[|s| - 1]) then StripRight(s[..|s| - 1]) else s
  }

  /**
   * Python's `s.strip()`: the longest slice of `s` that neither starts nor ends with a
   * whitespace character, everything removed around it being whitespace.
   */
  function Strip(s: string): (r: string)
    ensures exists i, j ::
              && 0 <= i <= j <= |s| && r == s[i..j]
              && (forall k :: 0 <= k < i ==> IsSpace(s[k]))
              && (forall k :: j <= k < |s| ==> IsSpace(s[k]))
    ensures r == [] || (!IsSpace(r[0]) && !IsSpace(r[|r| - 1]))
  {
    var l := StripLeft(s);
    var r := StripRight(l);
    assert r == s[|s| - |l|..|s| - |l| + |r|];
    r
  }

  /** A string without surrounding whitespace is its own strip. */
  lemma StripClean(s: string)
    requires s == [] || (!IsSpace(s[0]) && !IsSpace(s[|s| - 1]))
    ensures Strip(s) == s
  {
  }

  function DigitChar(d: nat): (c: char)
    requires d < 10
  {
    "0123456789"[d]
  }

  function DigitValue(c: char): (d: nat)
  {
    if '0' <= c <= '9' then (c as int - '0' as int) else 0
  }

  lemma DigitRoundTrip(d: nat)
    requires d < 10
    ensures DigitValue(DigitChar(d)) == d
  {
  }

  predicate AllDigits(s: string)
  {
    forall k :: 0 <= k < |s| ==> '0' <= s[k] <= '9'
  }

  /** Python's `str(n)` for a non-negative integer. */
  function DecimalString(n: nat): (r: string)
    ensures |r| > 0 && AllDigits(r)
    ensures n >= 10 ==> |r| >= 2
  {
    if n < 10 then [DigitChar(n)] else DecimalString(n / 10) + [DigitChar(n % 10)]
  }

  function Pow10(k: nat): (r: nat)
    ensures r >= 1
  {
    if k == 0 then 1 else 10 * Pow10(k - 1)
  }

  /** A number below 10^k has at most k digits. */
  lemma {:induction false} DecimalAtMost(n: nat, k: nat)
    requires k > 0 && n < Pow10(k)
    ensures |DecimalString(n)| <= k
  {
    if n >= 10 {
      DecimalAtMost(n / 10, k - 1);
    }
  }

  /** A number of at least 10^k has more than k digits. */
  lemma {:induction false} DecimalMoreThan(n: nat, k: nat)
    requires n >= Pow10(k)
    ensures |DecimalString(n)| > k
  {
    if k > 0 {
      DecimalMoreThan(n / 10, k - 1);
    }
  }

  /** `int(s)` for a string of decimal digits. */
  function ParseDecimal(s: string): nat
  {
    if s == [] then 0 else ParseDecimal(s[..|s| - 1]) * 10 + DigitValue(s[|s| - 1])
  }

  lemma {:induction false} ParseDecimalRoundTrip(n: nat)
    ensures ParseDecimal(DecimalString(n)) == n
  {
    if n >= 10 {
      var s := DecimalString(n);
      assert s[..|s| - 1] == DecimalString(n / 10);
      ParseDecimalRoundTrip(n / 10);
      DigitRoundTrip(n % 10);
    } else {
      DigitRoundTrip(n);
    }
  }

  /** Only zero prints as "0": `str(uid) == "0"` holds exactly for uid 0. */
  lemma DecimalZero(n: nat)
    ensures DecimalString(n) == "0" <==> n == 0
  {
    if n != 0 && n < 10 {
      assert DecimalString(n)[0] == DigitChar(n) != '0';
    }
  }

  function Zeros(k: nat): (r: string)
    ensures |r| == k && forall j :: 0 <= j < k ==> r[j] == '0'
  {
    if k == 0 then "" else "0" + Zeros(k - 1)
  }

  /** Python's `s.zfill(width)` for a string without a sign. */
  function ZFill(s: string, width: nat): (r: string)
    ensures |r| == if |s| >= width then |s| else width
    ensures r[|r| - |s|..] == s
    ensures forall j :: 0 <= j < |r| - |s| ==> r[j] == '0'
  {
    if |s| >= width then s else Zeros(width - |s|) + s
  }

  /** Padding digits with zeros gives digits. */
  lemma ZFillDigits(s: string, width: nat)
    requires AllDigits(s)
    ensures AllDigits(ZFill(s, width))
  {
    var r := ZFill(s, width);
    forall k | 0 <= k < |r| ensures '0' <= r[k] <= '9' {
      if k >= |r| - |s| {
        assert r[k] == r[|r| - |s|..][k - (|r| - |s|)];
      }
    }
  }

  lemma {:induction false} ParseLeadingZeros(k: nat, s: string)
    ensures ParseDecimal(Zeros(k) + s) == ParseDecimal(s)
    decreases |s|, k
  {
    if s == [] {
      if k > 0 {
        assert Zeros(k) + s == Zeros(k);
        assert Zeros(k)[..k - 1] == Zeros(k - 1);
        ParseLeadingZeros(k - 1, s);
        assert Zeros(k - 1) + s == Zeros(k - 1);
      }
    } else {
      var t := Zeros(k) + s;
      assert t[..|t| - 1] == Zeros(k) + s[..|s| - 1];
      ParseLeadingZeros(k, s[..|s| - 1]);
    }
  }

  /** Zero padding never changes the number a decimal string denotes. */
  lemma ZFillRoundTrip(n: nat, width: nat)
    ensures ParseDecimal(ZFill(DecimalString(n), width)) == n
  {
    var s := DecimalString(n);
    if |s| < width {
      ParseLeadingZeros(width - |s|, s);
    }
    ParseDecimalRoundTrip(n);
  }

  /** `a` is `b` with some elements left out, the rest in their order. */
  predicate SubSeq<T(==)>(a: seq<T>, b: seq<T>)
    decreases |b|
  {
    a == [] || (b != [] && ((a[0] == b[0] && SubSeq(a[1..], b[1..])) || SubSeq(a, b[1..])))
  }

  lemma SubSeqSkip<T>(a: seq<T>, b: seq<T>)
    requires b != [] && SubSeq(a, b[1..])
    ensures SubSeq(a, b)
  {
  }
}
