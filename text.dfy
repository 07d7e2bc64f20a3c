/**
 * The .NET string operations the refresh server relies on, on `seq<char>`:
 * `String.Replace(string, string)` and the decimal text of an `int` (as
 * string interpolation writes a port number). `IndexOf`, `LastIndexOf` and
 * `ParseInt` are not operations of the server: they serve only
 * `SplitOrigin`, the reader that states what the formatted URL names.
 */
module Text {
  import opened Wrappers

  /** `p` is a prefix of `s`. */
  predicate StartsWith(s: string, p: string)
  {
    |p| <= |s| && s[..|p|] == p
  }

  /** `p` occurs somewhere in `s` (ordinal comparison). */
  predicate Contains(s: string, p: string)
    decreases |s|
  {
    StartsWith(s, p) || (s != [] && Contains(s[1..], p))
  }

  /**
   * `s.Replace(pat, rep)`: every occurrence of `pat`, found scanning left to
   * right and never overlapping a replaced one, is replaced by `rep`.
   * A string without an occurrence comes back unchanged.
   */
  function ReplaceAll(s: string, pat: string, rep: string): (r: string)
    requires pat != []
    ensures !Contains(s, pat) ==> r == s
    decreases |s|
  {
    if StartsWith(s, pat) then rep + ReplaceAll(s[|pat|..], pat, rep)
    else if s == [] then []
    else [s[0]] + ReplaceAll(s[1..], pat, rep)
  }

  /** A non-empty prefix is its first character followed by the rest. */
  lemma StartsWithFirst(s: string, p: string)
    requires s != [] && p != []
    ensures StartsWith(s, p) <==> s[0] == p[0] && StartsWith(s[1..], p[1..])
  {
  }

  /** An occurrence in a suffix is an occurrence in the whole string. */
  lemma {:induction false} ContainsSuffix(s: string, p: string, k: nat)
    requires k <= |s|
    requires Contains(s[k..], p)
    ensures Contains(s, p)
    decreases k
  {
    if k > 0 {
      assert s[1..][k - 1..] == s[k..];
      ContainsSuffix(s[1..], p, k - 1);
    }
  }

  /** A prefix that holds no `p[0]` cannot hide or start an occurrence of `p`. */
  lemma {:induction false} ContainsPastPrefix(a: string, b: string, p: string)
    requires p != [] && p[0] !in a
    ensures Contains(a + b, p) <==> Contains(b, p)
    decreases |a|
  {
    if a != [] {
      assert (a + b)[0] == a[0];
      assert (a + b)[1..] == a[1..] + b;
      ContainsPastPrefix(a[1..], b, p);
    } else {
      assert a + b == b;
    }
  }

  /**
   * Up to the first copy of `rep` it emits, `ReplaceAll` copies its input:
   * any prefix of the result that is free of `rep[0]` is a prefix of `t`.
   */
  lemma {:induction false} KeptPrefix(t: string, pat: string, rep: string, m: nat)
    requires pat != [] && rep != []
    requires m <= |ReplaceAll(t, pat, rep)|
    ensures rep[0] in ReplaceAll(t, pat, rep)[..m]
            || (m <= |t| && t[..m] == ReplaceAll(t, pat, rep)[..m])
    decreases |t|
  {
    var r := ReplaceAll(t, pat, rep);
    if m == 0 {
    } else if StartsWith(t, pat) {
      assert r[..m][0] == rep[0];
    } else {
      var r' := ReplaceAll(t[1..], pat, rep);
      assert r == [t[0]] + r';
      KeptPrefix(t[1..], pat, rep, m - 1);
      assert r[..m] == [t[0]] + r'[..m - 1];
      if rep[0] !in r[..m] {
        assert rep[0] !in r'[..m - 1];
        assert t[..m] == [t[0]] + t[1..][..m - 1];
      }
    }
  }

  /**
   * When neither string starts with a character of the other, `ReplaceAll`
   * leaves no occurrence of `pat` behind: a copy of `rep` cannot start one,
   * and an occurrence cannot run into a copy of `rep`.
   */
  lemma {:induction false} ReplaceLeavesNoOccurrence(s: string, pat: string, rep: string)
    requires pat != [] && rep != []
    requires pat[0] !in rep && rep[0] !in pat
    ensures !Contains(ReplaceAll(s, pat, rep), pat)
    decreases |s|
  {
    var r := ReplaceAll(s, pat, rep);
    if StartsWith(s, pat) {
      var t := s[|pat|..];
      ReplaceLeavesNoOccurrence(t, pat, rep);
      ContainsPastPrefix(rep, ReplaceAll(t, pat, rep), pat);
    } else if s != [] {
      var t := s[1..];
      var rt := ReplaceAll(t, pat, rep);
      assert r == [s[0]] + rt;
      assert r[1..] == rt;
      ReplaceLeavesNoOccurrence(t, pat, rep);
      var m := if |pat| - 1 <= |rt| then |pat| - 1 else |rt|;
      KeptPrefix(t, pat, rep, m);
      assert rep[0] !in pat[1..];
      StartsWithFirst(r, pat);
      StartsWithFirst(s, pat);
    }
  }

  /**
   * Replacing `a` by `b` and then `b` by `a` gives back a string that held
   * no `b` to begin with, provided `b` does not repeat its first character.
   */
  lemma {:induction false} ReplaceRoundTrip(s: string, a: string, b: string)
    requires a != [] && b != []
    requires b[0] !in b[1..]
    requires !Contains(s, b)
    ensures ReplaceAll(ReplaceAll(s, a, b), b, a) == s
    decreases |s|
  {
    var r := ReplaceAll(s, a, b);
    if StartsWith(s, a) {
      var t := s[|a|..];
      if Contains(t, b) {
        ContainsSuffix(s, b, |a|);
      }
      ReplaceRoundTrip(t, a, b);
      var rt := ReplaceAll(t, a, b);
      assert r == b + rt;
      assert r[..|b|] == b;
      assert r[|b|..] == rt;
      assert s == a + t;
    } else if s != [] {
      var t := s[1..];
      var rt := ReplaceAll(t, a, b);
      assert r == [s[0]] + rt;
      assert r[1..] == rt;
      ReplaceRoundTrip(t, a, b);
      var m := if |b| - 1 <= |rt| then |b| - 1 else |rt|;
      KeptPrefix(t, a, b, m);
      StartsWithFirst(r, b);
      StartsWithFirst(s, b);
      assert [s[0]] + t == s;
    }
  }

  /** The position of the leftmost occurrence of `p` in `s`, if there is one. */
  function IndexOf(s: string, p: string): (r: Option<nat>)
    requires p != []
    ensures r.Some? ==> r.value + |p| <= |s| && StartsWith(s[r.value..], p)
    ensures r.Some? ==> forall k :: 0 <= k < r.value ==> !StartsWith(s[k..], p)
    ensures r.None? <==> !Contains(s, p)
    decreases |s|
  {
    if StartsWith(s, p) then Some(0)
    else if s == [] then None
    else match IndexOf(s[1..], p)
      case None => None
      case Some(i) =>
        assert forall k :: 1 <= k <= i ==> s[k..] == s[1..][k - 1..];
        Some(i + 1)
  }

  /** Behind a prefix free of `p[0]`, the leftmost occurrence is the one that follows it. */
  lemma {:induction false} IndexOfPastPrefix(a: string, b: string, p: string)
    requires p != [] && p[0] !in a && StartsWith(b, p)
    ensures IndexOf(a + b, p) == Some(|a|)
    decreases |a|
  {
    if a == [] {
      assert a + b == b;
    } else {
      assert (a + b)[0] == a[0];
      assert (a + b)[1..] == a[1..] + b;
      IndexOfPastPrefix(a[1..], b, p);
    }
  }

  /** The position of the last `c` in `s`, if there is one. */
  function LastIndexOf(s: string, c: char): (r: Option<nat>)
    ensures r.Some? ==> r.value < |s| && s[r.value] == c && c !in s[r.value + 1..]
    ensures r.None? <==> c !in s
    decreases |s|
  {
    if s == [] then None
    else if s[|s| - 1] == c then Some(|s| - 1)
    else
      var r := LastIndexOf(s[..|s| - 1], c);
      assert s == s[..|s| - 1] + [s[|s| - 1]];
      r
  }

  /** The character `c` followed by text without `c` is found by `LastIndexOf`. */
  lemma {:induction false} LastIndexOfBeforeTail(a: string, c: char, b: string)
    requires c !in b
    ensures LastIndexOf(a + [c] + b, c) == Some(|a|)
    decreases |b|
  {
    var s := a + [c] + b;
    if b != [] {
      var b' := b[..|b| - 1];
      assert s[..|s| - 1] == a + [c] + b';
      assert s[|s| - 1] == b[|b| - 1];
      LastIndexOfBeforeTail(a, c, b');
    }
  }

  // ---- Decimal text of integers ----

  predicate IsDigit(c: char) { '0' <= c <= '9' }

  predicate AllDigits(s: string) { forall i :: 0 <= i < |s| ==> IsDigit(s[i]) }

  function DigitChar(d: nat): (c: char)
    requires d < 10
    ensures IsDigit(c) && c as int - '0' as int == d
  {
    ('0' as int + d) as char
  }

  /** The value of a string of decimal digits, most significant first. */
  function DigitsValue(s: string): (value: nat)
    requires AllDigits(s)
  {
    if s == [] then 0
    else DigitsValue(s[..|s| - 1]) * 10 + (s[|s| - 1] as int - '0' as int)
  }

  /** The shortest decimal text of `n`, as `n.ToString()` writes a non-negative number. */
  function NatText(n: nat): (s: string)
    ensures s != [] && AllDigits(s)
  {
    if n < 10 then [DigitChar(n)] else NatText(n / 10) + [DigitChar(n % 10)]
  }

  /** The decimal text of `n`, with a leading '-' when it is negative. */
  function IntText(n: int): (s: string)
    ensures ':' !in s
  {
    if n < 0 then "-" + NatText(-n) else NatText(n)
  }

  /** Reads the text `IntText` writes; `None` for anything else that is not an optionally signed digit string. */
  function ParseInt(s: string): (n: Option<int>)
    ensures s == [] || s == "-" ==> n.None?
  {
    if s != [] && s[0] == '-' then
      (if |s| > 1 && AllDigits(s[1..]) then Some(-(DigitsValue(s[1..]) as int)) else None)
    else if s != [] && AllDigits(s) then Some(DigitsValue(s))
    else None
  }

  lemma {:induction false} NatTextValue(n: nat)
    ensures DigitsValue(NatText(n)) == n
  {
    if n >= 10 {
      var s := NatText(n / 10) + [DigitChar(n % 10)];
      assert s[..|s| - 1] == NatText(n / 10);
      NatTextValue(n / 10);
    }
  }

  /** Decimal text reads back as the number that was written. */
  lemma IntTextRoundTrip(n: int)
    ensures ParseInt(IntText(n)) == Some(n)
  {
    if n < 0 {
      NatTextValue(-n);
      assert IntText(n)[1..] == NatText(-n);
    } else {
      NatTextValue(n);
      assert NatText(n)[0] != '-';
    }
  }
}
