/** String operations the analyzer relies on: Python's substring test
    `sub in s`, `sep.join(xs)` and `str(n)` for a non-negative integer,
    each with the facts the rest of the model needs about it. */
module Text {

  /** Python's `sub in s` on strings: `sub` occurs somewhere in `s`. */
  predicate Contains(s: string, sub: string)
    decreases |s|
  {
    sub <= s || (|s| > 0 && Contains(s[1..], sub))
  }

  /** A window of `s` that equals `sub` witnesses `Contains(s, sub)`. */
  lemma {:induction false} ContainsAt(s: string, sub: string, i: nat)
    requires i + |sub| <= |s| && s[i..i + |sub|] == sub
    ensures Contains(s, sub)
  {
    if i > 0 {
      assert s[1..][i - 1..i - 1 + |sub|] == sub;
      ContainsAt(s[1..], sub, i - 1);
    }
  }

  /** Conversely, `Contains(s, sub)` yields a window of `s` equal to `sub`. */
  lemma {:induction false} ContainsWindow(s: string, sub: string) returns (i: nat)
    requires Contains(s, sub)
    ensures i + |sub| <= |s| && s[i..i + |sub|] == sub
  {
    if sub <= s {
      i := 0;
    } else {
      var j := ContainsWindow(s[1..], sub);
      i := j + 1;
      assert s[i..i + |sub|] == s[1..][j..j + |sub|];
    }
  }

  /** A window of `s` starting at `i` spells `sub`. */
  predicate WindowAt(s: string, sub: string, i: nat)
  {
    i + |sub| <= |s| && s[i..i + |sub|] == sub
  }

  /** `sub in s` holds exactly when some window of `s` equals `sub`. */
  lemma ContainsIffWindow(s: string, sub: string)
    ensures Contains(s, sub) <==> exists i: nat :: WindowAt(s, sub, i)
  {
    if Contains(s, sub) {
      var i := ContainsWindow(s, sub);
      assert WindowAt(s, sub, i);
    } else {
      forall i: nat | WindowAt(s, sub, i)
        ensures false
      {
        ContainsAt(s, sub, i);
      }
    }
  }

  /** Whatever sits between two strings is contained in their concatenation. */
  lemma ContainsMiddle(a: string, b: string, c: string)
    ensures Contains(a + b + c, b)
  {
    assert (a + b + c)[|a|..|a| + |b|] == b;
    ContainsAt(a + b + c, b, |a|);
  }

  /** What a string contains, any longer string ending in it contains too. */
  lemma {:induction false} ContainsInSuffix(a: string, b: string, sub: string)
    requires Contains(b, sub)
    ensures Contains(a + b, sub)
  {
    if a == [] {
      assert a + b == b;
    } else {
      assert (a + b)[1..] == a[1..] + b;
      ContainsInSuffix(a[1..], b, sub);
      assert Contains((a + b)[1..], sub);
    }
  }

  /** What a string contains, any longer string starting with it contains
      too. */
  lemma {:induction false} ContainsInPrefix(a: string, b: string, sub: string)
    requires Contains(a, sub)
    ensures Contains(a + b, sub)
  {
    if sub <= a {
      assert (a + b)[0..|sub|] == sub;
      ContainsAt(a + b, sub, 0);
    } else {
      ContainsInPrefix(a[1..], b, sub);
      assert (a + b)[1..] == a[1..] + b;
    }
  }

  /** A string is not in `s` when its first character occurs at no position
      of `s` where a window of its length could start. */
  lemma {:induction false} NoWindowStart(s: string, sub: string)
    requires |sub| > 0
    requires forall i :: 0 <= i <= |s| - |sub| ==> s[i] != sub[0]
    ensures !Contains(s, sub)
  {
    if |s| > 0 {
      if |sub| <= |s| {
        assert s[0] != sub[0];
      }
      assert forall i :: 0 <= i <= |s| - 1 - |sub| ==> s[1..][i] == s[i + 1];
      NoWindowStart(s[1..], sub);
    }
  }

  /** In particular, a string whose first character never occurs in `s`. */
  lemma MissingFirstChar(s: string, sub: string)
    requires |sub| > 0 && sub[0] !in s
    ensures !Contains(s, sub)
  {
    NoWindowStart(s, sub);
  }

  /** A string longer than `s` is not in `s`. */
  lemma {:induction false} TooLongToContain(s: string, sub: string)
    requires |s| < |sub|
    ensures !Contains(s, sub)
  {
    if |s| > 0 {
      TooLongToContain(s[1..], sub);
    }
  }

  /** Python's `sep.join(xs)`. */
  function Join(xs: seq<string>, sep: string): (r: string)
    ensures |xs| == 0 ==> r == ""
    ensures |xs| > 0 ==> xs[0] <= r
  {
    if |xs| == 0 then ""
    else if |xs| == 1 then xs[0]
    else xs[0] + sep + Join(xs[1..], sep)
  }

  /** Every joined element appears in the joined string, at a position the
      lemma returns. */
  lemma {:induction false} JoinHasElement(xs: seq<string>, sep: string, k: nat) returns (i: nat)
    requires k < |xs|
    ensures i + |xs[k]| <= |Join(xs, sep)| && Join(xs, sep)[i..i + |xs[k]|] == xs[k]
  {
    if k == 0 {
      i := 0;
      assert xs[0] <= Join(xs, sep);
    } else {
      var j := JoinHasElement(xs[1..], sep, k - 1);
      var head := xs[0] + sep;
      var tail := Join(xs[1..], sep);
      assert Join(xs, sep) == head + tail;
      i := |head| + j;
      assert xs[k] == xs[1..][k - 1];
      assert (head + tail)[i..i + |xs[k]|] == tail[j..j + |xs[k]|];
    }
  }

  /** Hence every element of `xs` is a substring of `sep.join(xs)`. */
  lemma JoinContainsEach(xs: seq<string>, sep: string, k: nat)
    requires k < |xs|
    ensures Contains(Join(xs, sep), xs[k])
  {
    var i := JoinHasElement(xs, sep, k);
    ContainsAt(Join(xs, sep), xs[k], i);
  }

  predicate IsDigit(c: char) { '0' <= c <= '9' }

  predicate IsDigits(s: string) { forall i :: 0 <= i < |s| ==> IsDigit(s[i]) }

  function DigitChar(d: nat): (c: char)
    requires d < 10
    ensures IsDigit(c) && c as int - '0' as int == d
  {
    ('0' as int + d) as char
  }

  /** Python's `str(n)` for a non-negative integer: decimal digits, most
      significant first. */
  function NatToString(n: nat): (r: string)
    ensures |r| > 0 && IsDigits(r)
    ensures r[0] == '0' ==> n == 0
  {
    if n < 10 then [DigitChar(n)] else NatToString(n / 10) + [DigitChar(n % 10)]
  }

  /** Reads a string of decimal digits back as a number. */
  function ParseNat(s: string): nat
    requires IsDigits(s)
  {
    if s == [] then 0 else 10 * ParseNat(s[..|s| - 1]) + (s[|s| - 1] as int - '0' as int)
  }

  /** `str(n)` loses nothing: reading it back gives `n`. */
  lemma {:induction false} ParseNatToString(n: nat)
    ensures ParseNat(NatToString(n)) == n
  {
    if n >= 10 {
      var r := NatToString(n);
      assert r[..|r| - 1] == NatToString(n / 10);
      ParseNatToString(n / 10);
    }
  }

  /** The longest prefix of `s` made of decimal digits. */
  function DigitPrefix(s: string): (r: string)
    ensures r <= s && IsDigits(r)
  {
    if s != [] && IsDigit(s[0]) then [s[0]] + DigitPrefix(s[1..]) else ""
  }

  /** The digit run of a number written before a non-digit is the number. */
  lemma {:induction false} DigitPrefixOfNumber(d: string, t: string)
    requires IsDigits(d)
    requires t == [] || !IsDigit(t[0])
    ensures DigitPrefix(d + t) == d
  {
    if d != [] {
      assert (d + t)[1..] == d[1..] + t;
      DigitPrefixOfNumber(d[1..], t);
    }
  }
}
