/** The optional value used for keys a dictionary may lack. */
module Options {
  datatype Option<T> = None | Some(value: T)
  {
    function GetOr(default: T): T
    {
      match this
      case Some(v) => v
      case None => default
    }
  }
}

/** String operations the Python code relies on: `t in s`, `str.lower()`,
    `str.strip()`, decimal rendering of integers and `sep.join(lines)`. */
module Text {

  /** `t` occurs in `s` starting at index `i`. */
  predicate OccursAt(s: string, t: string, i: int)
  {
    0 <= i && i + |t| <= |s| && s[i..i + |t|] == t
  }

  /** Python's substring test `t in s`. */
  predicate Contains(s: string, t: string)
  {
    exists i | 0 <= i <= |s| :: OccursAt(s, t, i)
  }

  /** `any(k in s for k in keys)`. */
  predicate ContainsAny(s: string, keys: seq<string>)
  {
    exists k | k in keys :: Contains(s, k)
  }

  /** A string that misses one character of `t` cannot contain `t`. */
  lemma MissingCharNotContained(s: string, t: string, j: nat)
    requires j < |t| && t[j] !in s
    ensures !Contains(s, t)
  {
  }

  /** A string occurs right after whatever precedes it. */
  lemma OccursAfter(a: string, t: string, b: string)
    ensures OccursAt(a + t + b, t, |a|)
  {
    assert (a + t + b)[|a|..|a| + |t|] == t;
  }

  /** Every string contains itself surrounded by anything. */
  lemma ContainsInfix(a: string, t: string, b: string)
    ensures Contains(a + t + b, t)
  {
    OccursAfter(a, t, b);
  }

  predicate IsAsciiUpper(c: char)
  {
    'A' <= c <= 'Z'
  }

  function LowerChar(c: char): char
  {
    if IsAsciiUpper(c) then (c as int + 32) as char else c
  }

  /** `s.lower()`, folding the ASCII letters A to Z. */
  function Lower(s: string): (r: string)
  {
    seq(|s|, i requires 0 <= i < |s| => LowerChar(s[i]))
  }

  /** Python's `str.isspace()` for one character. */
  predicate IsSpace(c: char)
  {
    '\t' <= c <= '\r' || '\U{1c}' <= c <= ' ' || c == '\U{85}' || c == '\U{a0}'
    || c == '\U{1680}' || '\U{2000}' <= c <= '\U{200a}' || c == '\U{2028}' || c == '\U{2029}'
    || c == '\U{202f}' || c == '\U{205f}' || c == '\U{3000}'
  }

  function StripStart(s: string): (r: string)
    ensures |r| <= |s| && r == s[|s| - |r|..]
    ensures r == [] || !IsSpace(r[0])
  {
    if |s| > 0 && IsSpace(s[0]) then StripStart(s[1..]) else s
  }

  function StripEnd(s: string): (r: string)
    ensures |r| <= |s| && r == s[..|r|]
    ensures r == [] || !IsSpace(r[|r| - 1])
  {
    if |s| > 0 && IsSpace(s[|s| - 1]) then StripEnd(s[..|s| - 1]) else s
  }

  /** Only whitespace is cut from the front. */
  lemma {:induction false} LeadingCutIsSpace(s: string)
    ensures forall k :: 0 <= k < |s| - |StripStart(s)| ==> IsSpace(s[k])
  {
    if |s| > 0 && IsSpace(s[0]) {
      LeadingCutIsSpace(s[1..]);
      forall k | 1 <= k < |s| - |StripStart(s)| ensures IsSpace(s[k]) {
        assert s[k] == s[1..][k - 1];
      }
    }
  }

  /** Only whitespace is cut from the back. */
  lemma {:induction false} TrailingCutIsSpace(s: string)
    ensures forall k :: |StripEnd(s)| <= k < |s| ==> IsSpace(s[k])
  {
    if |s| > 0 && IsSpace(s[|s| - 1]) {
      TrailingCutIsSpace(s[..|s| - 1]);
      forall k | |StripEnd(s)| <= k < |s| - 1 ensures IsSpace(s[k]) {
        assert s[k] == s[..|s| - 1][k];
      }
    }
  }

  /** `r` is `s` with only whitespace cut off before index `i` and after
      `r`'s end. */
  predicate TrimmedAt(s: string, r: string, i: int)
  {
    && OccursAt(s, r, i)
    && (forall k :: 0 <= k < i ==> IsSpace(s[k]))
    && (forall k :: i + |r| <= k < |s| ==> IsSpace(s[k]))
  }

  /** `s.strip()`: the result is a contiguous piece of `s` with no
      whitespace at either end, and what is cut off before and after it is
      all whitespace. */
  function Strip(s: string): (r: string)
    ensures |r| <= |s|
    ensures exists i | 0 <= i <= |s| :: TrimmedAt(s, r, i)
    ensures r == [] || (!IsSpace(r[0]) && !IsSpace(r[|r| - 1]))
  {
    Trimmed(s);
    StripEnd(StripStart(s))
  }

  /** Cutting leading then trailing whitespace cuts nothing else. */
  lemma Trimmed(s: string)
    ensures TrimmedAt(s, StripEnd(StripStart(s)), |s| - |StripStart(s)|)
  {
    LeadingCutIsSpace(s);
    TrailingCutIsSpace(StripStart(s));
    CutSpacesAround(s, StripStart(s), StripEnd(StripStart(s)));
  }

  /** A front cut `t` of `s` and a back cut `r` of `t`, each dropping only
      whitespace, leave `r` trimmed out of `s`. */
  lemma CutSpacesAround(s: string, t: string, r: string)
    requires |t| <= |s| && t == s[|s| - |t|..] && |r| <= |t| && r == t[..|r|]
    requires forall k :: 0 <= k < |s| - |t| ==> IsSpace(s[k])
    requires forall k :: |r| <= k < |t| ==> IsSpace(t[k])
    ensures TrimmedAt(s, r, |s| - |t|)
  {
    var i := |s| - |t|;
    assert s[i..][..|r|] == s[i..i + |r|];
    forall k | i + |r| <= k < |s| ensures IsSpace(s[k]) {
      assert s[k] == t[k - i];
    }
  }

  /** Stripping keeps only characters that were there: whatever holds of
      every character of `s` holds of every character of its strip. */
  lemma StripKeeps(s: string, p: char -> bool)
    requires forall k :: 0 <= k < |s| ==> p(s[k])
    ensures forall k :: 0 <= k < |Strip(s)| ==> p(Strip(s)[k])
  {
    var r := Strip(s);
    var i :| 0 <= i <= |s| && TrimmedAt(s, r, i);
    forall k | 0 <= k < |r| ensures p(r[k]) {
      assert r[k] == s[i..i + |r|][k] == s[i + k];
    }
  }

  /** A string without whitespace at either end is its own strip. */
  lemma StripNoSpaceEnds(s: string)
    requires s == [] || (!IsSpace(s[0]) && !IsSpace(s[|s| - 1]))
    ensures Strip(s) == s
  {
    assert StripStart(s) == s;
    assert StripEnd(s) == s;
  }

  /** Stripping twice strips nothing more. */
  lemma {:induction false} StripIdempotent(s: string)
    ensures Strip(Strip(s)) == Strip(s)
  {
    var r := Strip(s);
    assert StripStart(r) == r;
    assert StripEnd(r) == r;
  }

  function Digit(d: nat): char
    requires d < 10
  {
    ('0' as int + d) as char
  }

  /** `str(n)` for a natural number. */
  function Decimal(n: nat): (r: string)
    ensures 1 <= |r|
    ensures forall k :: 0 <= k < |r| ==> '0' <= r[k] <= '9'
    ensures (|r| == 1) == (n < 10)
  {
    if n < 10 then [Digit(n)] else Decimal(n / 10) + [Digit(n % 10)]
  }

  /** `str(i)` for any integer. */
  function IntToString(i: int): string
  {
    if i < 0 then "-" + Decimal(-i) else Decimal(i)
  }

  /** Distinct numbers have distinct decimal renderings. */
  lemma {:induction false} DecimalInjective(m: nat, n: nat)
    requires Decimal(m) == Decimal(n)
    ensures m == n
  {
    if m >= 10 && n >= 10 {
      var dm, dn := Decimal(m), Decimal(n);
      assert dm[..|dm| - 1] == Decimal(m / 10);
      assert dn[..|dn| - 1] == Decimal(n / 10);
      DecimalInjective(m / 10, n / 10);
      assert Digit(m % 10) == dm[|dm| - 1] == dn[|dn| - 1] == Digit(n % 10);
    }
  }

  /** `sep.join(lines)`. */
  function Join(lines: seq<string>, sep: string): string
  {
    if |lines| == 0 then ""
    else if |lines| == 1 then lines[0]
    else lines[0] + sep + Join(lines[1..], sep)
  }
}
