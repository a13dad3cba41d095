/**
 * The few Python string operations the training code relies on, written out
 * over `string` (a sequence of characters): `str.replace(pat, "")`,
 * `str.strip(c)`, ASCII `str.lower()`, `in` on strings, `str(n)` for a
 * natural number and `int(s)` for a decimal literal.
 */
module Text {
  import opened Wrappers

  /** `pat` occurs in `s` as a contiguous substring (Python's `pat in s`). */
  predicate Contains(s: string, pat: string)
  {
    exists i | 0 <= i <= |s| - |pat| :: OccursAt(s, pat, i)
  }

  predicate OccursAt(s: string, pat: string, i: int)
    requires 0 <= i <= |s| - |pat|
  {
    s[i..i + |pat|] == pat
  }

  /**
   * Python's `s.replace(pat, "")`: one left-to-right pass that deletes every
   * non-overlapping occurrence of `pat`.
   */
  function RemoveAll(s: string, pat: string): (r: string)
    requires pat != ""
    ensures |r| <= |s|
    decreases |s|
  {
    if |s| < |pat| then s
    else if s[..|pat|] == pat then RemoveAll(s[|pat|..], pat)
    else [s[0]] + RemoveAll(s[1..], pat)
  }

  /** A string in which `pat` does not occur is left as it is by `RemoveAll`. */
  lemma {:induction false} RemoveAllAbsent(s: string, pat: string)
    requires pat != "" && !Contains(s, pat)
    ensures RemoveAll(s, pat) == s
    decreases |s|
  {
    if |s| >= |pat| {
      assert !OccursAt(s, pat, 0);
      assert s[0..0 + |pat|] == s[..|pat|];
      assert !Contains(s[1..], pat) by {
        forall i | 0 <= i <= |s[1..]| - |pat|
          ensures !OccursAt(s[1..], pat, i)
        {
          assert !OccursAt(s, pat, i + 1);
          assert s[1..][i..i + |pat|] == s[i + 1..i + 1 + |pat|];
        }
      }
      RemoveAllAbsent(s[1..], pat);
    }
  }

  /** A string that begins with `pat` loses that occurrence and is scanned on from just after it. */
  lemma RemoveAllLeading(s: string, pat: string)
    requires pat != ""
    ensures RemoveAll(pat + s, pat) == RemoveAll(s, pat)
  {
    assert (pat + s)[..|pat|] == pat;
    assert (pat + s)[|pat|..] == s;
  }

  /** No occurrence of `pat` in `a + b` starts inside `a` and ends inside `b`. */
  predicate NoStraddle(a: string, b: string, pat: string)
  {
    forall i | 0 <= i < |a| && |a| < i + |pat| <= |a| + |b| :: !OccursAt(a + b, pat, i)
  }

  /** Dropping a prefix of `a` keeps the occurrences across the boundary out of the picture. */
  lemma NoStraddleDrop(a: string, b: string, pat: string, k: nat)
    requires k <= |a| && NoStraddle(a, b, pat)
    ensures a[k..] + b == (a + b)[k..]
    ensures NoStraddle(a[k..], b, pat)
  {
    var a' := a[k..];
    forall i | 0 <= i < |a'| && |a'| < i + |pat| <= |a'| + |b|
      ensures !OccursAt(a' + b, pat, i)
    {
      assert !OccursAt(a + b, pat, i + k);
      assert (a' + b)[i..i + |pat|] == (a + b)[i + k..i + k + |pat|];
    }
  }

  /**
   * `replace` works piecewise: when no occurrence of `pat` straddles the
   * boundary between `a` and `b`, replacing in `a + b` replaces in `a` and
   * in `b` separately.
   */
  lemma {:induction false} RemoveAllConcat(a: string, b: string, pat: string)
    requires pat != "" && NoStraddle(a, b, pat)
    ensures RemoveAll(a + b, pat) == RemoveAll(a, pat) + RemoveAll(b, pat)
    decreases |a|
  {
    var ab := a + b;
    if a == [] {
      assert ab == b;
    } else if |ab| < |pat| {
      assert RemoveAll(a, pat) == a && RemoveAll(b, pat) == b;
    } else if |pat| <= |a| && a[..|pat|] == pat {
      assert ab[..|pat|] == pat;
      NoStraddleDrop(a, b, pat, |pat|);
      RemoveAllConcat(a[|pat|..], b, pat);
      assert RemoveAll(ab, pat) == RemoveAll(a[|pat|..] + b, pat);
    } else {
      assert ab[..|pat|] != pat by {
        if |a| < |pat| {
          assert !OccursAt(ab, pat, 0);
          assert ab[0..0 + |pat|] == ab[..|pat|];
        } else {
          assert ab[..|pat|] == a[..|pat|];
        }
      }
      NoStraddleDrop(a, b, pat, 1);
      RemoveAllConcat(a[1..], b, pat);
      assert RemoveAll(ab, pat) == [a[0]] + RemoveAll(a[1..] + b, pat);
      if |pat| <= |a| {
        assert RemoveAll(a, pat) == [a[0]] + RemoveAll(a[1..], pat);
      } else {
        assert RemoveAll(a[1..], pat) == a[1..];
        assert RemoveAll(a, pat) == a == [a[0]] + a[1..];
      }
    }
  }

  /** When the last character of `a` is not in `pat`, no occurrence can straddle the end of `a`. */
  lemma NoStraddleAtBoundary(a: string, b: string, pat: string)
    requires a != [] && a[|a| - 1] !in pat
    ensures NoStraddle(a, b, pat)
  {
    forall i | 0 <= i < |a| && |a| < i + |pat| <= |a| + |b|
      ensures !OccursAt(a + b, pat, i)
    {
      assert (a + b)[i..i + |pat|][|a| - 1 - i] == a[|a| - 1];
    }
  }

  /** Adding a character that is not in `pat` at either end creates no occurrence. */
  lemma ContainsExtend(s: string, c: char, pat: string)
    requires pat != "" && c !in pat && !Contains(s, pat)
    ensures !Contains([c] + s, pat) && !Contains(s + [c], pat)
  {
    forall i | 0 <= i <= |[c] + s| - |pat|
      ensures !OccursAt([c] + s, pat, i)
    {
      if i == 0 {
        assert ([c] + s)[i..i + |pat|][0] == c;
        assert pat[0] in pat;
      } else {
        assert !OccursAt(s, pat, i - 1);
        assert ([c] + s)[i..i + |pat|] == s[i - 1..i - 1 + |pat|];
      }
    }
    forall i | 0 <= i <= |s + [c]| - |pat|
      ensures !OccursAt(s + [c], pat, i)
    {
      if i + |pat| <= |s| {
        assert !OccursAt(s, pat, i);
        assert (s + [c])[i..i + |pat|] == s[i..i + |pat|];
      } else {
        assert (s + [c])[i..i + |pat|][|s| - i] == c;
        assert pat[|s| - i] in pat;
      }
    }
  }

  /** Where `s.lstrip(c)` starts, scanning forward from i: the first position at or after i not holding `c`. */
  function SkipForward(s: string, c: char, i: nat): (r: nat)
    requires i <= |s|
    ensures i <= r <= |s| && (r == |s| || s[r] != c)
    ensures forall k :: i <= k < r ==> s[k] == c
    decreases |s| - i
  {
    if i < |s| && s[i] == c then SkipForward(s, c, i + 1) else i
  }

  /** Where `s.rstrip(c)` ends, scanning back from j down to lo: just past the last position not holding `c`. */
  function SkipBackward(s: string, c: char, lo: nat, j: nat): (r: nat)
    requires lo <= j <= |s|
    ensures lo <= r <= j && (r == lo || s[r - 1] != c)
    ensures forall k :: r <= k < j ==> s[k] == c
    decreases j
  {
    if j > lo && s[j - 1] == c then SkipBackward(s, c, lo, j - 1) else j
  }

  /**
   * Python's `s.strip(c)` for one character `c`: the result is a contiguous
   * part of `s`, everything around it is `c`, and it neither starts nor ends
   * with `c`.
   */
  function Strip(s: string, c: char): (r: string)
    ensures r == [] || (r[0] != c && r[|r| - 1] != c)
    ensures exists k :: Surrounds(s, r, c, k)
  {
    var lo := SkipForward(s, c, 0);
    var hi := SkipBackward(s, c, lo, |s|);
    assert Surrounds(s, s[lo..hi], c, lo);
    s[lo..hi]
  }

  /** `s` is `r` placed at offset `k` with only copies of `c` before and after it. */
  predicate Surrounds(s: string, r: string, c: char, k: int)
  {
    0 <= k <= |s| - |r| && s[k..k + |r|] == r
    && (forall i :: 0 <= i < k ==> s[i] == c)
    && (forall i :: k + |r| <= i < |s| ==> s[i] == c)
  }

  /** A string that neither starts nor ends with `c` is its own strip. */
  lemma {:induction false} StripBare(s: string, c: char)
    requires s == [] || (s[0] != c && s[|s| - 1] != c)
    ensures Strip(s, c) == s
  {
    assert SkipForward(s, c, 0) == 0;
    assert SkipBackward(s, c, 0, |s|) == |s|;
  }

  /** Stripping is idempotent: a stripped string is a fixed point of `Strip`. */
  lemma StripIdempotent(s: string, c: char)
    ensures Strip(Strip(s, c), c) == Strip(s, c)
  {
    StripBare(Strip(s, c), c);
  }

  /**
   * `strip` is pinned down by its contract: two strings placed in `s` with
   * only `c` around them, neither starting nor ending with `c`, are equal.
   */
  lemma {:induction false} SurroundsUnique(s: string, r1: string, r2: string, c: char, k1: int, k2: int)
    requires Surrounds(s, r1, c, k1) && (r1 == [] || (r1[0] != c && r1[|r1| - 1] != c))
    requires Surrounds(s, r2, c, k2) && (r2 == [] || (r2[0] != c && r2[|r2| - 1] != c))
    ensures r1 == r2
  {
    if r1 != [] {
      assert s[k1] == r1[0] && s[k1 + |r1| - 1] == r1[|r1| - 1];
    }
    if r2 != [] {
      assert s[k2] == r2[0] && s[k2 + |r2| - 1] == r2[|r2| - 1];
    }
    if r1 != [] && r2 != [] {
      assert k1 == k2;
      assert |r1| == |r2|;
    }
  }

  /** Stripping ignores one more copy of `c` at either end. */
  lemma StripExtend(s: string, c: char)
    ensures Strip([c] + s, c) == Strip(s, c)
    ensures Strip(s + [c], c) == Strip(s, c)
  {
    StripPrepend(s, c);
    StripAppend(s, c);
  }

  lemma StripPrepend(s: string, c: char)
    ensures Strip([c] + s, c) == Strip(s, c)
  {
    var r := Strip(s, c);
    var k :| Surrounds(s, r, c, k);
    var s' := [c] + s;
    assert s'[k + 1..k + 1 + |r|] == s[k..k + |r|];
    assert Surrounds(s', r, c, k + 1);
    var k' :| Surrounds(s', Strip(s', c), c, k');
    SurroundsUnique(s', r, Strip(s', c), c, k + 1, k');
  }

  lemma StripAppend(s: string, c: char)
    ensures Strip(s + [c], c) == Strip(s, c)
  {
    var r := Strip(s, c);
    var k :| Surrounds(s, r, c, k);
    var s' := s + [c];
    assert s'[k..k + |r|] == s[k..k + |r|];
    assert Surrounds(s', r, c, k);
    var k' :| Surrounds(s', Strip(s', c), c, k');
    SurroundsUnique(s', r, Strip(s', c), c, k, k');
  }

  /** ASCII upper case to lower case; every other character is kept. */
  function LowerChar(ch: char): (r: char)
    ensures 'A' <= ch <= 'Z' ==> r as int == ch as int + 32
    ensures !('A' <= ch <= 'Z') ==> r == ch
  {
    if 'A' <= ch <= 'Z' then (ch as int + 32) as char else ch
  }

  /** Python's `s.lower()` restricted to ASCII letters. */
  function Lower(s: string): (r: string)
    ensures |r| == |s| && forall i :: 0 <= i < |s| ==> r[i] == LowerChar(s[i])
  {
    seq(|s|, i requires 0 <= i < |s| => LowerChar(s[i]))
  }

  predicate IsDigit(ch: char)
  {
    '0' <= ch <= '9'
  }

  function DigitChar(d: nat): (ch: char)
    requires d < 10
    ensures IsDigit(ch) && ch as int - '0' as int == d
  {
    ('0' as int + d) as char
  }

  /** Python's `str(n)` for a natural number: its decimal digits, most significant first. */
  function NatToString(n: nat): (r: string)
    ensures r != [] && forall i :: 0 <= i < |r| ==> IsDigit(r[i])
    decreases n
  {
    if n < 10 then [DigitChar(n)] else NatToString(n / 10) + [DigitChar(n % 10)]
  }

  function DigitValue(ch: char): nat
    requires IsDigit(ch)
  {
    ch as int - '0' as int
  }

  /** The value of a string of decimal digits. */
  function DigitsValue(s: string): nat
    requires forall i :: 0 <= i < |s| ==> IsDigit(s[i])
  {
    if s == [] then 0 else DigitsValue(s[..|s| - 1]) * 10 + DigitValue(s[|s| - 1])
  }

  /** Reading back what `NatToString` wrote gives the number again. */
  lemma {:induction false} DigitsValueOfNatToString(n: nat)
    ensures DigitsValue(NatToString(n)) == n
    decreases n
  {
    if n >= 10 {
      var s := NatToString(n);
      assert s[..|s| - 1] == NatToString(n / 10);
      DigitsValueOfNatToString(n / 10);
    }
  }

  /** Distinct numbers are printed as distinct strings. */
  lemma NatToStringInjective(a: nat, b: nat)
    requires a != b
    ensures NatToString(a) != NatToString(b)
  {
    DigitsValueOfNatToString(a);
    DigitsValueOfNatToString(b);
  }

  datatype ParseError = InvalidLiteral(text: string)

  /**
   * Python's `int(s)` on a string: an optional sign followed by at least one
   * decimal digit; anything else raises ValueError.
   */
  function ParseInt(s: string): (r: Result<int, ParseError>)
    ensures r.Err? <==> (s == [] || (s[0] in "+-" && |s| == 1)
                         || exists i | (if s[0] in "+-" then 1 else 0) <= i < |s| :: !IsDigit(s[i]))
  {
    var start := if s != [] && s[0] in "+-" then 1 else 0;
    if |s| <= start || exists i | start <= i < |s| :: !IsDigit(s[i]) then Err(InvalidLiteral(s))
    else
      var v := DigitsValue(s[start..]);
      Ok(if s[0] == '-' then -(v as int) else v)
  }

  /** `int(str(n)) == n`: printing a natural number and parsing it back is the identity. */
  lemma ParseNatToString(n: nat)
    ensures ParseInt(NatToString(n)) == Ok(n)
  {
    var s := NatToString(n);
    assert s[0] !in "+-" by { assert IsDigit(s[0]); }
    assert s[0..] == s;
    DigitsValueOfNatToString(n);
  }
}
