/** The handful of Python string operations the core relies on: `in` on strings,
    `str.replace`, `str.strip` and `str.upper`, each stated on `seq<char>`. */
module Strings {

  /** `s.startswith(prefix)` */
  predicate StartsWith(s: string, prefix: string) {
    |prefix| <= |s| && s[..|prefix|] == prefix
  }

  /** `needle in s`: some position of `s` starts a copy of `needle`. */
  predicate Occurs(needle: string, s: string)
    decreases |s|
  {
    StartsWith(s, needle) || (|s| > 0 && Occurs(needle, s[1..]))
  }

  /** Some character of `s` does not appear anywhere in `t`. */
  predicate HasCharOutside(s: string, t: string) {
    exists i :: 0 <= i < |s| && s[i] !in t
  }

  /** `s.replace(pat, rep)`: scanning left to right, every non-overlapping
      occurrence of `pat` is replaced by `rep`. */
  function ReplaceAll(s: string, pat: string, rep: string): (r: string)
    requires |pat| > 0
    ensures !Occurs(pat, s) ==> r == s
    decreases |s|
  {
    if |s| < |pat| then s
    else if s[..|pat|] == pat then rep + ReplaceAll(s[|pat|..], pat, rep)
    else
      assert [s[0]] + s[1..] == s;
      [s[0]] + ReplaceAll(s[1..], pat, rep)
  }

  /** A string shorter than `needle` does not contain it. */
  lemma {:induction false} ShortHasNoOccurrence(needle: string, s: string)
    requires |s| < |needle|
    ensures !Occurs(needle, s)
    decreases |s|
  {
    if |s| > 0 {
      ShortHasNoOccurrence(needle, s[1..]);
    }
  }

  /** Absence of `needle` carries over to every suffix. */
  lemma {:induction false} SuffixHasNoOccurrence(needle: string, s: string, k: nat)
    requires k <= |s| && !Occurs(needle, s)
    ensures !Occurs(needle, s[k..])
    decreases k
  {
    if k == 0 {
      assert s[k..] == s;
    } else {
      assert s[1..][k - 1..] == s[k..];
      SuffixHasNoOccurrence(needle, s[1..], k - 1);
    }
  }

  /** An occurrence in a suffix is an occurrence in the whole string. */
  lemma {:induction false} OccursAfterPrefix(needle: string, w: string, x: string)
    requires Occurs(needle, x)
    ensures Occurs(needle, w + x)
    decreases |w|
  {
    if |w| > 0 {
      assert (w + x)[1..] == w[1..] + x;
      OccursAfterPrefix(needle, w[1..], x);
    } else {
      assert w + x == x;
    }
  }

  /** A prefix `w` that lacks the first character of `needle` cannot hold the
      start of an occurrence. */
  lemma {:induction false} OccursPastPrefix(needle: string, w: string, x: string)
    requires |needle| > 0 && needle[0] !in w
    requires Occurs(needle, w + x)
    ensures Occurs(needle, x)
    decreases |w|
  {
    if |w| > 0 {
      assert (w + x)[0] == w[0];
      assert (w + x)[1..] == w[1..] + x;
      OccursPastPrefix(needle, w[1..], x);
    } else {
      assert w + x == x;
    }
  }

  /** A text lacking the last character of `q`, and holding a character `q`
      lacks, is not the front of a copy of `q`, whatever follows it. */
  lemma ReplacementCannotStart(rep: string, x: string, q: string)
    requires |q| > 0 && q[|q| - 1] !in rep && HasCharOutside(rep, q)
    ensures !StartsWith(rep + x, q)
  {
    var i :| 0 <= i < |rep| && rep[i] !in q;
    if |rep| >= |q| {
      assert (rep + x)[|q| - 1] == rep[|q| - 1];
    } else {
      assert (rep + x)[i] == rep[i];
    }
  }

  /** A replacement text that neither holds the last character of `q` nor is
      spelled with characters of `q` alone cannot start a copy of `q`, so a copy
      of `q` at the front of the output was already at the front of the input. */
  lemma {:induction false} ReplacedPrefixWasThere(t: string, pat: string, rep: string, q: string)
    requires |pat| > 0 && |q| > 0
    requires q[|q| - 1] !in rep && HasCharOutside(rep, q)
    requires StartsWith(ReplaceAll(t, pat, rep), q)
    ensures StartsWith(t, q)
    decreases |t|
  {
    var r := ReplaceAll(t, pat, rep);
    if |t| < |pat| {
    } else if t[..|pat|] == pat {
      ReplacementCannotStart(rep, ReplaceAll(t[|pat|..], pat, rep), q);
      assert false;
    } else {
      var rest := ReplaceAll(t[1..], pat, rep);
      assert r == [t[0]] + rest;
      if |q| > 1 {
        assert StartsWith(rest, q[1..]) by {
          assert rest[..|q| - 1] == r[1..|q|];
        }
        var i :| 0 <= i < |rep| && rep[i] !in q;
        assert rep[i] !in q[1..];
        ReplacedPrefixWasThere(t[1..], pat, rep, q[1..]);
        assert t[..|q|] == [t[0]] + t[1..][..|q| - 1];
      }
    }
  }

  /** After `s.replace(pat, rep)`, the text `q` occurs nowhere, provided `q` is
      `pat` itself or did not occur in `s`, and `rep` holds neither the first nor
      the last character of `q` and has a character `q` lacks. */
  lemma {:induction false} ReplaceAllAvoids(s: string, pat: string, rep: string, q: string)
    requires |pat| > 0 && |q| > 0
    requires q[0] !in rep && q[|q| - 1] !in rep && HasCharOutside(rep, q)
    requires q == pat || !Occurs(q, s)
    ensures !Occurs(q, ReplaceAll(s, pat, rep))
    decreases |s|
  {
    var r := ReplaceAll(s, pat, rep);
    if |s| < |pat| {
      if q == pat {
        ShortHasNoOccurrence(q, s);
      }
    } else if s[..|pat|] == pat {
      var tail := s[|pat|..];
      if q != pat {
        SuffixHasNoOccurrence(q, s, |pat|);
      }
      ReplaceAllAvoids(tail, pat, rep, q);
      if Occurs(q, r) {
        OccursPastPrefix(q, rep, ReplaceAll(tail, pat, rep));
        assert false;
      }
    } else {
      var rest := ReplaceAll(s[1..], pat, rep);
      assert r == [s[0]] + rest;
      ReplaceAllAvoids(s[1..], pat, rep, q);
      assert r[1..] == rest;
      if StartsWith(r, q) {
        if |q| > 1 {
          assert StartsWith(rest, q[1..]) by {
            assert rest[..|q| - 1] == r[1..|q|];
          }
          var i :| 0 <= i < |rep| && rep[i] !in q;
          assert rep[i] !in q[1..];
          ReplacedPrefixWasThere(s[1..], pat, rep, q[1..]);
        }
        assert false;
      }
    }
  }

  /** Replacing an occurring `pat` leaves a copy of `rep` in the output. */
  lemma {:induction false} ReplaceAllIntroduces(s: string, pat: string, rep: string)
    requires |pat| > 0 && Occurs(pat, s)
    ensures Occurs(rep, ReplaceAll(s, pat, rep))
    decreases |s|
  {
    var r := ReplaceAll(s, pat, rep);
    if |s| < |pat| {
      ShortHasNoOccurrence(pat, s);
    } else if s[..|pat|] == pat {
      assert r[..|rep|] == rep;
    } else {
      ReplaceAllIntroduces(s[1..], pat, rep);
      assert r == [s[0]] + ReplaceAll(s[1..], pat, rep);
      assert r[1..] == ReplaceAll(s[1..], pat, rep);
    }
  }

  /** The scan copies a prefix `u` untouched when `u` lacks the first character
      of `pat`: no occurrence of `pat` can start inside it. */
  lemma {:induction false} ReplaceAllKeepsPrefix(t: string, pat: string, rep: string, u: string)
    requires |pat| > 0 && pat[0] !in u && StartsWith(t, u)
    ensures StartsWith(ReplaceAll(t, pat, rep), u)
    decreases |t|
  {
    if |u| > 0 && |t| >= |pat| && t[..|pat|] != pat {
      var rest := ReplaceAll(t[1..], pat, rep);
      assert t[1..][..|u| - 1] == t[1..|u|];
      ReplaceAllKeepsPrefix(t[1..], pat, rep, u[1..]);
      assert ReplaceAll(t, pat, rep) == [t[0]] + rest;
    }
  }

  /** A copy of `w` cannot overlap the front copy of `r` when `w` lacks the last
      character of `r` and has a character `r` lacks: it lies past it. */
  lemma {:induction false} OccursBeyond(t: string, r: string, w: string)
    requires |r| > 0 && |w| > 0
    requires r[|r| - 1] !in w && HasCharOutside(w, r)
    requires StartsWith(t, r) && Occurs(w, t)
    ensures Occurs(w, t[|r|..])
    decreases |r|
  {
    if StartsWith(t, w) {
      assert false;
    }
    if |r| > 1 {
      assert StartsWith(t[1..], r[1..]) by {
        assert t[1..][..|r| - 1] == t[1..|r|];
      }
      var i :| 0 <= i < |w| && w[i] !in r;
      assert w[i] !in r[1..];
      OccursBeyond(t[1..], r[1..], w);
      assert t[1..][|r| - 1..] == t[|r|..];
    }
  }

  /** `s.replace(pat, rep)` keeps every copy of a text `w` that holds neither the
      first nor the last character of `pat` and has a character `pat` lacks. */
  lemma {:induction false} ReplaceAllKeeps(s: string, pat: string, rep: string, w: string)
    requires |pat| > 0 && |w| > 0
    requires pat[0] !in w && pat[|pat| - 1] !in w && HasCharOutside(w, pat)
    requires Occurs(w, s)
    ensures Occurs(w, ReplaceAll(s, pat, rep))
    decreases |s|
  {
    var r := ReplaceAll(s, pat, rep);
    if |s| < |pat| {
    } else if s[..|pat|] == pat {
      var tail := s[|pat|..];
      OccursBeyond(s, pat, w);
      ReplaceAllKeeps(tail, pat, rep, w);
      OccursAfterPrefix(w, rep, ReplaceAll(tail, pat, rep));
    } else {
      var rest := ReplaceAll(s[1..], pat, rep);
      assert r == [s[0]] + rest;
      if StartsWith(s, w) {
        ReplaceAllKeepsPrefix(s, pat, rep, w);
      } else {
        ReplaceAllKeeps(s[1..], pat, rep, w);
        assert r[1..] == rest;
      }
    }
  }

  /** The characters Python's `str.isspace` accepts. */
  predicate IsSpace(c: char) {
    || c == ' ' || c == '\t' || c == '\n' || c == '\r'
    || c == '\U{0B}' || c == '\U{0C}'
    || ('\U{1C}' <= c <= '\U{1F}')
    || c == '\U{85}' || c == '\U{A0}' || c == '\U{1680}'
    || ('\U{2000}' <= c <= '\U{200A}')
    || c == '\U{2028}' || c == '\U{2029}' || c == '\U{202F}'
    || c == '\U{205F}' || c == '\U{3000}'
  }

  /** `s.lstrip()` */
  function TrimStart(s: string): (r: string)
    ensures |r| <= |s| && r == s[|s| - |r|..]
    ensures forall k :: 0 <= k < |s| - |r| ==> IsSpace(s[k])
    ensures r == [] || !IsSpace(r[0])
    decreases |s|
  {
    if |s| > 0 && IsSpace(s[0]) then TrimStart(s[1..]) else s
  }

  /** `s.rstrip()` */
  function TrimEnd(s: string): (r: string)
    ensures |r| <= |s| && r == s[..|r|]
    ensures forall k :: |r| <= k < |s| ==> IsSpace(s[k])
    ensures r == [] || !IsSpace(r[|r| - 1])
    decreases |s|
  {
    if |s| > 0 && IsSpace(s[|s| - 1]) then TrimEnd(s[..|s| - 1]) else s
  }

  /** `s` holds `r` at position `i` with only whitespace around it. */
  predicate SurroundedBySpace(s: string, i: int, r: string) {
    0 <= i <= |s| && StartsWith(s[i..], r) &&
    (forall k :: 0 <= k < i ==> IsSpace(s[k])) &&
    (forall k :: i + |r| <= k < |s| ==> IsSpace(s[k]))
  }

  /** Trimming both ends leaves the text between the leading and the trailing
      whitespace. */
  lemma TrimmedIsSurrounded(s: string)
    ensures SurroundedBySpace(s, |s| - |TrimStart(s)|, TrimEnd(TrimStart(s)))
    ensures TrimEnd(TrimStart(s)) == [] ==> forall k :: 0 <= k < |s| ==> IsSpace(s[k])
  {
    var front := TrimStart(s);
    var r := TrimEnd(front);
    var i := |s| - |front|;
    assert s[i..] == front;
    assert front[..|r|] == r;
    assert forall k :: i + |r| <= k < |s| ==> s[k] == front[k - i];
  }

  /** `s.strip()`: the middle part of `s` between its leading and trailing
      whitespace; empty exactly when `s` is whitespace only. */
  function Strip(s: string): (r: string)
    ensures r == [] || (!IsSpace(r[0]) && !IsSpace(r[|r| - 1]))
    ensures r == [] <==> forall k :: 0 <= k < |s| ==> IsSpace(s[k])
    ensures exists i :: SurroundedBySpace(s, i, r)
  {
    TrimmedIsSurrounded(s);
    TrimEnd(TrimStart(s))
  }

  /** Two non-space positions with only whitespace before them are the same. */
  lemma SameFirstNonSpace(s: string, i: int, j: int)
    requires 0 <= i < |s| && 0 <= j < |s| && !IsSpace(s[i]) && !IsSpace(s[j])
    requires forall k :: 0 <= k < i ==> IsSpace(s[k])
    requires forall k :: 0 <= k < j ==> IsSpace(s[k])
    ensures i == j
  {
  }

  /** Two ends of non-space text with only whitespace after them are the same. */
  lemma SameLastNonSpace(s: string, e: int, f: int)
    requires 0 < e <= |s| && 0 < f <= |s| && !IsSpace(s[e - 1]) && !IsSpace(s[f - 1])
    requires forall k :: e <= k < |s| ==> IsSpace(s[k])
    requires forall k :: f <= k < |s| ==> IsSpace(s[k])
    ensures e == f
  {
  }

  /** Two non-empty runs surrounded by whitespace, neither starting nor ending
      with whitespace, are the same run. */
  lemma SurroundedRunsAgree(s: string, i: int, t: string, j: int, r: string)
    requires SurroundedBySpace(s, i, t) && t != [] && !IsSpace(t[0]) && !IsSpace(t[|t| - 1])
    requires SurroundedBySpace(s, j, r) && r != [] && !IsSpace(r[0]) && !IsSpace(r[|r| - 1])
    ensures t == r
  {
    assert t == s[i..i + |t|] && r == s[j..j + |r|];
    assert s[i] == t[0] && s[j] == r[0];
    SameFirstNonSpace(s, i, j);
    assert s[i + |t| - 1] == t[|t| - 1] && s[j + |r| - 1] == r[|r| - 1];
    SameLastNonSpace(s, i + |t|, j + |r|);
  }

  /** The characterisation pins `strip()` down: a non-empty run surrounded by
      whitespace whose own ends are not whitespace is exactly `Strip(s)`. */
  lemma SurroundedRunIsStrip(s: string, i: int, t: string)
    requires SurroundedBySpace(s, i, t) && t != [] && !IsSpace(t[0]) && !IsSpace(t[|t| - 1])
    ensures t == Strip(s)
  {
    TrimmedIsSurrounded(s);
    var r := TrimEnd(TrimStart(s));
    assert s[i..][0] == t[0];
    SurroundedRunsAgree(s, i, t, |s| - |TrimStart(s)|, r);
  }

  /** `c.upper()` for the ASCII letters; every other character is kept. */
  function UpperChar(c: char): char {
    if 'a' <= c <= 'z' then (c as int - 32) as char else c
  }

  /** Upper-casing never turns whitespace into text or text into whitespace. */
  lemma UpperCharKeepsSpace(c: char)
    ensures IsSpace(UpperChar(c)) <==> IsSpace(c)
  {
  }

  /** `s.upper()`, character by character. */
  function Upper(s: string): (r: string)
    ensures |r| == |s|
    ensures forall i :: 0 <= i < |s| ==> r[i] == UpperChar(s[i])
  {
    seq(|s|, i requires 0 <= i < |s| => UpperChar(s[i]))
  }

  /** Upper-casing twice is upper-casing once. */
  lemma UpperIdempotent(s: string)
    ensures Upper(Upper(s)) == Upper(s)
  {
  }

  predicate IsDigit(c: char) {
    '0' <= c <= '9'
  }

  function DigitChar(d: nat): (c: char)
    requires d < 10
    ensures IsDigit(c)
  {
    ('0' as int + d) as char
  }

  /** `str(n)` for a natural number: its decimal digits, most significant first. */
  function DecimalDigits(n: nat): (r: string)
    ensures |r| > 0
    ensures forall i :: 0 <= i < |r| ==> IsDigit(r[i])
    ensures n < 10 ==> |r| == 1
  {
    if n < 10 then [DigitChar(n)] else DecimalDigits(n / 10) + [DigitChar(n % 10)]
  }
}
