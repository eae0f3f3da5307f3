/** The few operations of Python's `str` that the adapter relies on, written
    out over `seq<char>`: whitespace, `split()`, `strip()`, `find`, `startswith`,
    the substring test `in`, and `str(int)`. */
module Strings {
  import opened Wrappers

  /** The characters Python treats as whitespace in `str.split()` and
      `str.strip()` without arguments (`str.isspace`). */
  predicate IsSpace(c: char) {
    ('\t' <= c <= '\r') || ('\U{001C}' <= c <= ' ') || c == '\U{0085}' || c == '\U{00A0}'
    || c == '\U{1680}' || ('\U{2000}' <= c <= '\U{200A}') || c == '\U{2028}' || c == '\U{2029}'
    || c == '\U{202F}' || c == '\U{205F}' || c == '\U{3000}'
  }

  /** A token that `split()` can produce: non-empty, no whitespace. */
  predicate IsWord(w: string) {
    |w| > 0 && forall k :: 0 <= k < |w| ==> !IsSpace(w[k])
  }

  // ---------------------------------------------------------------------
  // Prefixes, substrings and the first occurrence of a character

  /** `s.startswith(p)` */
  predicate StartsWith(s: string, p: string) {
    |p| <= |s| && s[..|p|] == p
  }

  /** Python's `t in s` for strings: `t` occurs contiguously in `s`. */
  predicate Contains(s: string, t: string) {
    exists k | 0 <= k <= |s| - |t| :: OccursAt(s, t, k)
  }

  /** `t` occurs in `s` starting at index `k`. */
  predicate OccursAt(s: string, t: string, k: int) {
    0 <= k <= |s| - |t| && s[k..k + |t|] == t
  }

  lemma ContainsPrefix(p: string, rest: string)
    ensures Contains(p + rest, p)
  {
    assert OccursAt(p + rest, p, 0);
  }

  /** `s.find(c)`: the index of the first `c` in `s`, or `None` (Python's -1). */
  function Find(s: string, c: char): (r: Option<nat>)
    ensures r.None? <==> c !in s
    ensures r.Some? ==> r.value < |s| && s[r.value] == c && c !in s[..r.value]
  {
    if s == [] then None
    else if s[0] == c then Some(0)
    else match Find(s[1..], c)
      case None => None
      case Some(i) =>
        assert s[..i + 1] == [s[0]] + s[1..][..i];
        Some(i + 1)
  }

  /** The first `c` of `e + p` is the first of `p` when `e` has none. */
  lemma FindAfterPrefix(e: string, p: string, c: char)
    requires c !in e && |p| > 0 && p[0] == c
    ensures Find(e + p, c) == Some(|e|)
  {
    var s := e + p;
    assert s[..|e|] == e;
    assert s[|e|] == c;
  }

  /** `s.split(c)[0]`: everything before the first `c`, or all of `s`. */
  function BeforeFirst(s: string, c: char): (r: string)
    ensures c !in r
    ensures StartsWith(s, r)
    ensures c !in s ==> r == s
    ensures c in s ==> |r| < |s| && s[|r|] == c
  {
    match Find(s, c)
    case None => s
    case Some(i) => s[..i]
  }

  // ---------------------------------------------------------------------
  // strip()

  /** The number of whitespace characters that open `s`. */
  function LeadingSpaces(s: string): (n: nat)
    ensures n <= |s|
    ensures forall k :: 0 <= k < n ==> IsSpace(s[k])
    ensures n < |s| ==> !IsSpace(s[n])
  {
    if s == [] || !IsSpace(s[0]) then 0 else 1 + LeadingSpaces(s[1..])
  }

  /** The number of whitespace characters that close `s`. */
  function TrailingSpaces(s: string): (n: nat)
    ensures n <= |s|
    ensures forall k :: |s| - n <= k < |s| ==> IsSpace(s[k])
    ensures n < |s| ==> !IsSpace(s[|s| - 1 - n])
  {
    if s == [] || !IsSpace(s[|s| - 1]) then 0 else 1 + TrailingSpaces(s[..|s| - 1])
  }

  /** `s.strip()`: `s` without its leading and trailing whitespace. */
  function Strip(s: string): (r: string)
    ensures r == [] || (!IsSpace(r[0]) && !IsSpace(r[|r| - 1]))
    ensures LeadingSpaces(s) + |r| <= |s|
    ensures r == s[LeadingSpaces(s)..LeadingSpaces(s) + |r|]
    ensures forall k :: 0 <= k < LeadingSpaces(s) ==> IsSpace(s[k])
    ensures forall k :: LeadingSpaces(s) + |r| <= k < |s| ==> IsSpace(s[k])
  {
    var front := s[LeadingSpaces(s)..];
    front[..|front| - TrailingSpaces(front)]
  }

  /** Stripping a string that already has no surrounding whitespace is the identity. */
  lemma StripUnchanged(s: string)
    requires s == [] || (!IsSpace(s[0]) && !IsSpace(s[|s| - 1]))
    ensures Strip(s) == s
  {
    if s != [] {
      assert LeadingSpaces(s) == 0;
      assert TrailingSpaces(s) == 0;
    }
  }

  /** A single trailing space is stripped off a word-like string. */
  lemma StripOneTrailingSpace(s: string)
    requires s != [] && !IsSpace(s[0]) && !IsSpace(s[|s| - 1])
    ensures Strip(s + " ") == s
  {
    var t := s + " ";
    assert LeadingSpaces(t) == 0;
    assert t[..|t| - 1] == s;
    assert TrailingSpaces(s) == 0;
    assert TrailingSpaces(t) == 1;
  }

  /** Every character of `s` is whitespace. */
  predicate AllSpace(s: string) {
    forall k :: 0 <= k < |s| ==> IsSpace(s[k])
  }

  /** A whitespace run followed by a non-whitespace character or nothing is
      exactly the leading whitespace. */
  lemma {:induction false} LeadingSpacesOfRun(lead: string, s: string)
    requires AllSpace(lead) && (s == [] || !IsSpace(s[0]))
    ensures LeadingSpaces(lead + s) == |lead|
  {
    if lead != [] {
      assert (lead + s)[1..] == lead[1..] + s;
      LeadingSpacesOfRun(lead[1..], s);
    }
  }

  /** A whitespace run preceded by a non-whitespace character or nothing is
      exactly the trailing whitespace. */
  lemma {:induction false} TrailingSpacesOfRun(s: string, trail: string)
    requires AllSpace(trail) && (s == [] || !IsSpace(s[|s| - 1]))
    ensures TrailingSpaces(s + trail) == |trail|
  {
    if trail != [] {
      var t := s + trail;
      assert t[..|t| - 1] == s + trail[..|trail| - 1];
      TrailingSpacesOfRun(s, trail[..|trail| - 1]);
    }
  }

  /** `strip()` removes exactly the surrounding whitespace runs: whatever
      lies between them and has no whitespace at either end is the result. */
  lemma StripSurrounded(lead: string, name: string, trail: string)
    requires AllSpace(lead) && AllSpace(trail)
    requires name == [] || (!IsSpace(name[0]) && !IsSpace(name[|name| - 1]))
    ensures Strip(lead + name + trail) == name
  {
    var s := lead + name + trail;
    if name == [] {
      assert s == lead + trail;
      assert AllSpace(lead + trail);
      LeadingSpacesOfRun(lead + trail, []);
      assert lead + trail + [] == lead + trail;
    } else {
      assert s == lead + (name + trail);
      LeadingSpacesOfRun(lead, name + trail);
      assert s[|lead|..] == name + trail;
      TrailingSpacesOfRun(name, trail);
      assert (name + trail)[..|name|] == name;
    }
  }

  // ---------------------------------------------------------------------
  // split()

  /** The length of the run of non-whitespace characters that opens `s`. */
  function WordLength(s: string): (n: nat)
    ensures n <= |s|
    ensures forall k :: 0 <= k < n ==> !IsSpace(s[k])
    ensures n < |s| ==> IsSpace(s[n])
  {
    if s == [] || IsSpace(s[0]) then 0 else 1 + WordLength(s[1..])
  }

  /** All tokens joined without separators. */
  function Concat(ws: seq<string>): string {
    if ws == [] then [] else ws[0] + Concat(ws[1..])
  }

  /** The characters of `s` that are not whitespace, in order. */
  function NonSpaces(s: string): string {
    if s == [] then [] else (if IsSpace(s[0]) then [] else [s[0]]) + NonSpaces(s[1..])
  }

  lemma {:induction false} NonSpacesOfWordPrefix(s: string, n: nat)
    requires n <= |s|
    requires forall k :: 0 <= k < n ==> !IsSpace(s[k])
    ensures NonSpaces(s) == s[..n] + NonSpaces(s[n..])
  {
    if n > 0 {
      NonSpacesOfWordPrefix(s[1..], n - 1);
      assert s[1..][n - 1..] == s[n..];
      assert s[..n] == [s[0]] + s[1..][..n - 1];
    }
  }

  /** `s.split()`: the maximal runs of non-whitespace characters of `s`, in
      order; no token is empty and only whitespace is dropped. */
  function Split(s: string): (r: seq<string>)
    ensures forall i :: 0 <= i < |r| ==> IsWord(r[i])
    ensures Concat(r) == NonSpaces(s)
    decreases |s|
  {
    if s == [] then []
    else if IsSpace(s[0]) then Split(s[1..])
    else
      var n := WordLength(s);
      var rest := Split(s[n..]);
      NonSpacesOfWordPrefix(s, n);
      assert ([s[..n]] + rest)[1..] == rest;
      [s[..n]] + rest
  }

  /** Tokens joined by single spaces, the usual way to write a configuration. */
  function JoinSpaced(ws: seq<string>): string {
    if ws == [] then "" else if |ws| == 1 then ws[0] else ws[0] + " " + JoinSpaced(ws[1..])
  }

  lemma WordLengthOfWord(w: string, t: string)
    requires IsWord(w)
    requires t == [] || IsSpace(t[0])
    ensures WordLength(w + t) == |w|
    decreases |w|
  {
    if |w| > 1 {
      assert (w + t)[1..] == w[1..] + t;
      WordLengthOfWord(w[1..], t);
    } else {
      assert (w + t)[1..] == t;
    }
  }

  /** Splitting undoes joining with spaces, for tokens that `split()` could produce. */
  lemma {:induction false} SplitJoinSpaced(ws: seq<string>)
    requires forall i :: 0 <= i < |ws| ==> IsWord(ws[i])
    ensures Split(JoinSpaced(ws)) == ws
  {
    if |ws| == 1 {
      SplitWordCons(ws[0], []);
      assert ws[0] + [] == ws[0];
    } else if |ws| > 1 {
      var w, rest := ws[0], JoinSpaced(ws[1..]);
      assert JoinSpaced(ws) == w + ([' '] + rest);
      SplitWordCons(w, [' '] + rest);
      SplitSpaceCons(' ', rest);
      SplitJoinSpaced(ws[1..]);
      assert [w] + ws[1..] == ws;
    }
  }

  /** A configuration without whitespace is one token. */
  lemma SplitWord(w: string)
    requires IsWord(w)
    ensures Split(w) == [w]
  {
    SplitJoinSpaced([w]);
  }

  /** Leading whitespace is dropped by `split()`. */
  lemma SplitSpaceCons(c: char, s: string)
    requires IsSpace(c)
    ensures Split([c] + s) == Split(s)
  {
    assert ([c] + s)[1..] == s;
  }

  /** A word that ends at whitespace or at the end of the string is the
      next token: tokens are the maximal runs of non-whitespace. */
  lemma SplitWordCons(w: string, t: string)
    requires IsWord(w) && (t == [] || IsSpace(t[0]))
    ensures Split(w + t) == [w] + Split(t)
  {
    WordLengthOfWord(w, t);
    var s := w + t;
    assert s[0] == w[0];
    assert s[..|w|] == w && s[|w|..] == t;
  }

  // ---------------------------------------------------------------------
  // Cancelling parts of equal concatenations

  /** Equal strings with the same prefix and suffix have equal middles. */
  lemma CancelAffixes(p: string, u: string, v: string, q: string)
    requires p + u + q == p + v + q
    ensures u == v
  {
    var s, t := p + u + q, p + v + q;
    assert u == s[|p|..|s| - |q|];
    assert v == t[|p|..|t| - |q|];
  }

  /** Two words free of the separator `c`, each followed by a rest that starts
      with `c`: equal concatenations have equal words and equal rests. */
  lemma SplitAtSeparator(c: char, a: string, x: string, b: string, y: string)
    requires c !in a && c !in b && |x| > 0 && x[0] == c && |y| > 0 && y[0] == c
    requires a + x == b + y
    ensures a == b && x == y
  {
    SeparatorBound(c, a, x, b, y);
    SeparatorBound(c, b, y, a, x);
    assert a == (a + x)[..|a|] == (b + y)[..|b|] == b;
    assert x == (a + x)[|a|..] == (b + y)[|b|..] == y;
  }

  lemma SeparatorBound(c: char, a: string, x: string, b: string, y: string)
    requires c !in b && |x| > 0 && x[0] == c
    requires a + x == b + y
    ensures |b| <= |a|
  {
    assert (a + x)[|a|] == c;
    assert forall i | 0 <= i < |b| :: (b + y)[i] == b[i] && b[i] in b;
  }

  // ---------------------------------------------------------------------
  // str(int)

  predicate IsDigit(c: char) {
    '0' <= c <= '9'
  }

  function DigitChar(d: nat): (c: char)
    requires d < 10
    ensures IsDigit(c)
  {
    ('0' as int + d) as char
  }

  function DigitValue(c: char): (d: nat)
    requires IsDigit(c)
    ensures d < 10 && DigitChar(d) == c
  {
    c as int - '0' as int
  }

  /** The decimal digits of `n`, most significant first, no leading zeros. */
  function NatToString(n: nat): (s: string)
    ensures |s| > 0
    ensures forall k :: 0 <= k < |s| ==> IsDigit(s[k])
  {
    if n < 10 then [DigitChar(n)] else NatToString(n / 10) + [DigitChar(n % 10)]
  }

  /** Reads a string of decimal digits back as a number. */
  function ParseNat(s: string): nat
    requires forall k :: 0 <= k < |s| ==> IsDigit(s[k])
  {
    if s == [] then 0 else ParseNat(s[..|s| - 1]) * 10 + DigitValue(s[|s| - 1])
  }

  lemma {:induction false} ParseNatToString(n: nat)
    ensures ParseNat(NatToString(n)) == n
  {
    if n >= 10 {
      var s := NatToString(n);
      assert s[..|s| - 1] == NatToString(n / 10);
      ParseNatToString(n / 10);
    }
  }

  /** Python's `str(i)` for an integer. */
  function IntToString(i: int): (s: string)
    ensures |s| > 0
    ensures forall k :: 0 <= k < |s| ==> IsDigit(s[k]) || s[k] == '-'
  {
    if i < 0 then "-" + NatToString(-i) else NatToString(i)
  }

  /** The printed form starts with a minus sign exactly for negative numbers. */
  lemma IntToStringSign(i: int)
    ensures IntToString(i)[0] == '-' <==> i < 0
  {
    if i >= 0 {
      assert IsDigit(NatToString(i)[0]);
    }
  }

  /** Different integers print differently. */
  lemma IntToStringInjective(a: int, b: int)
    requires IntToString(a) == IntToString(b)
    ensures a == b
  {
    IntToStringSign(a);
    IntToStringSign(b);
    if a < 0 {
      assert NatToString(-a) == IntToString(a)[1..] == NatToString(-b);
      ParseNatToString(-a);
      ParseNatToString(-b);
    } else {
      assert NatToString(a) == IntToString(a) == IntToString(b) == NatToString(b);
      ParseNatToString(a);
      ParseNatToString(b);
    }
  }
}
