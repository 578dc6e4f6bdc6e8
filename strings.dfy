/**
 * The Python string operations the core relies on: prefix and suffix tests,
 * substring search (`p in s`), `str.replace`, `str.split(sep)`, `str.strip()`,
 * `"".join` and decimal rendering of integers.
 *
 * Characters are Dafny `char`s. `str.isalnum` and `str.isspace` are modelled on
 * ASCII only (Python also accepts non-ASCII letters, digits and spaces).
 */
module Strings {

  predicate StartsWith(s: string, p: string) {
    |p| <= |s| && s[..|p|] == p
  }

  predicate EndsWith(s: string, p: string) {
    |p| <= |s| && s[|s| - |p|..] == p
  }

  /** `p` occurs in `s` starting at position `i`. */
  predicate OccursAt(s: string, p: string, i: int) {
    0 <= i && i + |p| <= |s| && s[i..i + |p|] == p
  }

  /** Python's `p in s` for two strings. */
  predicate Occurs(s: string, p: string) {
    exists i | 0 <= i <= |s| - |p| :: OccursAt(s, p, i)
  }

  lemma OccursInSlice(s: string, p: string, a: nat, b: nat, i: int)
    requires a <= b <= |s| && OccursAt(s[a..b], p, i)
    ensures OccursAt(s, p, a + i)
  {
    forall k | 0 <= k < |p| ensures s[a + i + k] == p[k] {
      assert s[a..b][i..i + |p|][k] == p[k];
    }
    assert s[a + i..a + i + |p|] == p;
  }

  lemma NotOccursInPrefix(s: string, p: string, n: nat)
    requires n <= |s| && !Occurs(s, p)
    ensures !Occurs(s[..n], p)
  {
    if Occurs(s[..n], p) {
      var i :| 0 <= i <= n - |p| && OccursAt(s[..n], p, i);
      OccursInSlice(s, p, 0, n, i);
    }
  }

  lemma NotOccursInSuffix(s: string, p: string, n: nat)
    requires n <= |s| && !Occurs(s, p)
    ensures !Occurs(s[n..], p)
  {
    if Occurs(s[n..], p) {
      var i :| 0 <= i <= |s| - n - |p| && OccursAt(s[n..], p, i);
      assert s[n..|s|] == s[n..];
      OccursInSlice(s, p, n, |s|, i);
    }
  }

  /** The leftmost occurrence of `p` in `s`. */
  lemma {:induction false} FirstOccurrence(s: string, p: string) returns (j: nat)
    requires Occurs(s, p)
    ensures OccursAt(s, p, j)
    ensures forall i | 0 <= i < j :: !OccursAt(s, p, i)
    decreases |s|
  {
    if OccursAt(s, p, 0) {
      j := 0;
    } else {
      var i :| 0 <= i <= |s| - |p| && OccursAt(s, p, i);
      OccursInTail(s, p, i);
      var j' := FirstOccurrence(s[1..], p);
      j := j' + 1;
      OccursFromTail(s, p, j');
      forall k | 0 < k < j ensures !OccursAt(s, p, k) {
        if OccursAt(s, p, k) {
          OccursInTail(s, p, k);
        }
      }
    }
  }

  lemma OccursInTail(s: string, p: string, j: nat)
    requires 0 < j && OccursAt(s, p, j)
    ensures OccursAt(s[1..], p, j - 1)
  {
    assert s[1..][j - 1..j - 1 + |p|] == s[j..j + |p|];
  }

  lemma OccursFromTail(s: string, p: string, j: nat)
    requires s != [] && OccursAt(s[1..], p, j)
    ensures OccursAt(s, p, j + 1)
  {
    assert s[1..][j..j + |p|] == s[j + 1..j + 1 + |p|];
  }

  predicate IsPrefix(p: string, s: string)
    decreases |p|
  {
    p == [] || (s != [] && p[0] == s[0] && IsPrefix(p[1..], s[1..]))
  }

  lemma {:induction false} IsPrefixIff(p: string, s: string)
    ensures IsPrefix(p, s) <==> |p| <= |s| && s[..|p|] == p
    decreases |p|
  {
    if p != [] && s != [] {
      IsPrefixIff(p[1..], s[1..]);
      if |p| <= |s| {
        assert s[..|p|] == [s[0]] + s[1..][..|p| - 1];
        assert p == [p[0]] + p[1..];
      }
    }
  }

  /**
   * Python's `s.replace(pat, rep)` for a non-empty `pat`: scan from the left and
   * replace every non-overlapping occurrence.
   */
  function Replace(s: string, pat: string, rep: string): string
    requires pat != []
    decreases |s|
  {
    if |s| < |pat| then s
    else if IsPrefix(pat, s) then rep + Replace(s[|pat|..], pat, rep)
    else [s[0]] + Replace(s[1..], pat, rep)
  }

  /** Replacing a phrase that does not occur changes nothing. */
  lemma {:induction false} ReplaceAbsent(s: string, pat: string, rep: string)
    requires pat != [] && !Occurs(s, pat)
    ensures Replace(s, pat, rep) == s
    decreases |s|
  {
    if |s| >= |pat| {
      assert !OccursAt(s, pat, 0);
      IsPrefixIff(pat, s);
      NotOccursInSuffix(s, pat, 1);
      ReplaceAbsent(s[1..], pat, rep);
    }
  }

  lemma NoEarlierInTail(s: string, pat: string, j: nat)
    requires 0 < j <= |s|
    requires forall i | 0 <= i < j :: !OccursAt(s, pat, i)
    ensures forall i | 0 <= i < j - 1 :: !OccursAt(s[1..], pat, i)
  {
    forall i | 0 <= i < j - 1 ensures !OccursAt(s[1..], pat, i) {
      if OccursAt(s[1..], pat, i) {
        assert s[1..|s|] == s[1..];
        OccursInSlice(s, pat, 1, |s|, i);
      }
    }
  }

  /** `Replace` copies everything before the leftmost occurrence and replaces it. */
  lemma {:induction false} ReplaceAtFirst(s: string, pat: string, rep: string, j: nat)
    requires pat != [] && OccursAt(s, pat, j)
    requires forall i | 0 <= i < j :: !OccursAt(s, pat, i)
    ensures Replace(s, pat, rep) == s[..j] + rep + Replace(s[j + |pat|..], pat, rep)
    decreases j, 1
  {
    if j == 0 {
      ReplaceHere(s, pat, rep);
    } else {
      ReplaceAtLater(s, pat, rep, j);
    }
  }

  lemma {:induction false} ReplaceAtLater(s: string, pat: string, rep: string, j: nat)
    requires pat != [] && 0 < j && OccursAt(s, pat, j)
    requires forall i | 0 <= i < j :: !OccursAt(s, pat, i)
    ensures Replace(s, pat, rep) == s[..j] + rep + Replace(s[j + |pat|..], pat, rep)
    decreases j, 0
  {
    var t := s[1..];
    OccursInTail(s, pat, j);
    NoEarlierInTail(s, pat, j);
    ReplaceAtFirst(t, pat, rep, j - 1);
    assert !OccursAt(s, pat, 0);
    ReplaceBehind(s, pat, rep, j);
  }

  lemma ReplaceHere(s: string, pat: string, rep: string)
    requires pat != [] && OccursAt(s, pat, 0)
    ensures Replace(s, pat, rep) == s[..0] + rep + Replace(s[|pat|..], pat, rep)
  {
    IsPrefixIff(pat, s);
    assert s[..0] + rep == rep;
  }

  /** One step of `Replace` past a position where `pat` does not start. */
  lemma ReplaceBehind(s: string, pat: string, rep: string, j: nat)
    requires pat != [] && 0 < j && j + |pat| <= |s| && !OccursAt(s, pat, 0)
    requires Replace(s[1..], pat, rep) == s[1..][..j - 1] + rep + Replace(s[1..][j - 1 + |pat|..], pat, rep)
    ensures Replace(s, pat, rep) == s[..j] + rep + Replace(s[j + |pat|..], pat, rep)
  {
    var tail := Replace(s[j + |pat|..], pat, rep);
    assert s[1..][j - 1 + |pat|..] == s[j + |pat|..];
    assert Replace(s, pat, rep) == [s[0]] + Replace(s[1..], pat, rep) by {
      ReplaceSkip(s, pat, rep);
    }
    ConsPrefix(s, j, rep, tail);
  }

  lemma ReplaceSkip(s: string, pat: string, rep: string)
    requires pat != [] && |pat| <= |s| && !OccursAt(s, pat, 0)
    ensures Replace(s, pat, rep) == [s[0]] + Replace(s[1..], pat, rep)
  {
    IsPrefixIff(pat, s);
  }

  lemma ConsPrefix(s: string, j: nat, rep: string, tail: string)
    requires 0 < j <= |s|
    ensures [s[0]] + (s[1..][..j - 1] + rep + tail) == s[..j] + rep + tail
  {
    assert [s[0]] + s[1..][..j - 1] == s[..j];
  }

  /**
   * `q` cannot be created by putting `rep` between two texts that lack it: `q`
   * does not occur in `rep`, no proper prefix of `q` ends `rep`, no proper
   * suffix of `q` starts `rep`, and `rep` does not sit strictly inside `q`.
   */
  predicate Compatible(q: string, rep: string) {
    && !Occurs(rep, q)
    && (forall L | 1 <= L < |q| && L <= |rep| :: q[..L] != rep[|rep| - L..])
    && (forall L | 1 <= L < |q| && L <= |rep| :: q[|q| - L..] != rep[..L])
    && (forall m | 1 <= m && m + |rep| < |q| :: !OccursAt(q, rep, m))
  }

  lemma ConcatKeepsAbsent(x: string, rep: string, y: string, q: string)
    requires !Occurs(x, q) && !Occurs(y, q) && Compatible(q, rep)
    ensures !Occurs(x + rep + y, q)
  {
    forall j | 0 <= j <= |x + rep + y| - |q| ensures !OccursAt(x + rep + y, q, j) {
      WindowAbsent(x, rep, y, q, j);
    }
  }

  /** The window of `x + rep + y` at `j` is not `q`, wherever it falls. */
  lemma WindowAbsent(x: string, rep: string, y: string, q: string, j: nat)
    requires !Occurs(x, q) && !Occurs(y, q) && Compatible(q, rep)
    ensures !OccursAt(x + rep + y, q, j)
  {
    var t := x + rep + y;
    if j + |q| > |t| {
    } else if j + |q| <= |x| {
      assert t[j..j + |q|] == x[j..j + |q|];
      assert !OccursAt(x, q, j);
    } else if j >= |x| + |rep| {
      var k := j - |x| - |rep|;
      assert t[j..j + |q|] == y[k..k + |q|];
      assert !OccursAt(y, q, k);
    } else if |x| <= j && j + |q| <= |x| + |rep| {
      var k := j - |x|;
      assert t[j..j + |q|] == rep[k..k + |q|];
      assert !OccursAt(rep, q, k);
    } else if |x| <= j {
      WindowEndsRep(x, rep, y, q, j);
    } else if j + |q| <= |x| + |rep| {
      WindowStartsRep(x, rep, y, q, j);
    } else {
      WindowHoldsRep(x, rep, y, q, j);
    }
  }

  /** A window that starts inside `rep` and runs past its end. */
  lemma WindowEndsRep(x: string, rep: string, y: string, q: string, j: nat)
    requires Compatible(q, rep)
    requires |x| <= j < |x| + |rep| < j + |q| <= |x + rep + y|
    ensures !OccursAt(x + rep + y, q, j)
  {
    var t := x + rep + y;
    var w := t[j..j + |q|];
    var L := |x| + |rep| - j;
    forall k | 0 <= k < L ensures w[k] == rep[|rep| - L + k] {
      assert w[k] == t[j + k];
    }
    assert w[..L] == rep[|rep| - L..];
    assert q[..L] != rep[|rep| - L..];
  }

  /** A window that starts inside `x` and ends inside `rep`. */
  lemma WindowStartsRep(x: string, rep: string, y: string, q: string, j: nat)
    requires Compatible(q, rep)
    requires j < |x| < j + |q| <= |x| + |rep|
    ensures !OccursAt(x + rep + y, q, j)
  {
    var t := x + rep + y;
    var w := t[j..j + |q|];
    var m := |x| - j;
    var L := |q| - m;
    forall k | 0 <= k < L ensures w[m + k] == rep[k] {
      assert w[m + k] == t[j + m + k];
    }
    assert w[m..] == rep[..L];
    assert q[|q| - L..] != rep[..L];
  }

  /** A window that starts inside `x` and ends past `rep`. */
  lemma WindowHoldsRep(x: string, rep: string, y: string, q: string, j: nat)
    requires Compatible(q, rep)
    requires j < |x| && |x| + |rep| < j + |q| <= |x + rep + y|
    ensures !OccursAt(x + rep + y, q, j)
  {
    var t := x + rep + y;
    var w := t[j..j + |q|];
    var m := |x| - j;
    forall k | 0 <= k < |rep| ensures w[m + k] == rep[k] {
      assert w[m + k] == t[j + m + k];
    }
    assert w[m..m + |rep|] == rep;
    assert !OccursAt(q, rep, m);
  }

  /**
   * After `s.replace(pat, rep)` a phrase `q` compatible with `rep` is absent,
   * if it is `pat` itself or was absent from `s` already.
   */
  lemma {:induction false} ReplaceLeavesAbsent(s: string, pat: string, rep: string, q: string)
    requires pat != [] && Compatible(q, rep)
    requires q == pat || !Occurs(s, q)
    ensures !Occurs(Replace(s, pat, rep), q)
    decreases |s|
  {
    if !Occurs(s, pat) {
      ReplaceAbsent(s, pat, rep);
    } else {
      var j := FirstOccurrence(s, pat);
      ReplaceAtFirst(s, pat, rep, j);
      var x, z := s[..j], s[j + |pat|..];
      if q == pat {
        if Occurs(x, q) {
          var i :| 0 <= i <= |x| - |q| && OccursAt(x, q, i);
          OccursInSlice(s, q, 0, j, i);
        }
      } else {
        NotOccursInPrefix(s, q, j);
        NotOccursInSuffix(s, q, j + |pat|);
      }
      ReplaceLeavesAbsent(z, pat, rep, q);
      ConcatKeepsAbsent(x, rep, Replace(z, pat, rep), q);
    }
  }

  // ----- split and join -----

  /** Python's `s.split(sep)` for a one-character separator. */
  function Split(s: string, sep: char): (parts: seq<string>)
    ensures |parts| >= 1
    decreases |s|
  {
    if s == [] then [""]
    else
      var rest := Split(s[1..], sep);
      if s[0] == sep then [""] + rest
      else [[s[0]] + rest[0]] + rest[1..]
  }

  /** Python's `sep.join(parts)`. */
  function Join(parts: seq<string>, sep: string): string
    decreases |parts|
  {
    if parts == [] then ""
    else if |parts| == 1 then parts[0]
    else parts[0] + sep + Join(parts[1..], sep)
  }

  /** `"".join(parts)`. */
  function Concat(parts: seq<string>): string
    decreases |parts|
  {
    if parts == [] then "" else parts[0] + Concat(parts[1..])
  }

  lemma {:induction false} ConcatAppend(a: seq<string>, b: seq<string>)
    ensures Concat(a + b) == Concat(a) + Concat(b)
    decreases |a|
  {
    if a == [] {
      assert a + b == b;
    } else {
      assert (a + b)[1..] == a[1..] + b;
      ConcatAppend(a[1..], b);
    }
  }

  function CountChar(s: string, c: char): nat
    decreases |s|
  {
    if s == [] then 0 else (if s[0] == c then 1 else 0) + CountChar(s[1..], c)
  }

  /** Splitting on `sep` yields one more piece than there are separators. */
  lemma {:induction false} SplitCount(s: string, sep: char)
    ensures |Split(s, sep)| == CountChar(s, sep) + 1
    decreases |s|
  {
    if s != [] {
      SplitCount(s[1..], sep);
    }
  }

  /** No piece of a split contains the separator. */
  lemma {:induction false} SplitPiecesLackSep(s: string, sep: char)
    ensures forall i | 0 <= i < |Split(s, sep)| :: sep !in Split(s, sep)[i]
    decreases |s|
  {
    if s != [] {
      SplitPiecesLackSep(s[1..], sep);
    }
  }

  /** Joining the pieces with the separator gives back the original text. */
  lemma {:induction false} SplitJoin(s: string, sep: char)
    ensures Join(Split(s, sep), [sep]) == s
    decreases |s|
  {
    if s != [] {
      SplitJoin(s[1..], sep);
      var rest := Split(s[1..], sep);
      if s[0] == sep {
        assert ([""] + rest)[1..] == rest;
      } else {
        var parts := [[s[0]] + rest[0]] + rest[1..];
        if |rest| > 1 {
          assert parts[1..] == rest[1..];
          assert Join(rest, [sep]) == rest[0] + [sep] + Join(rest[1..], [sep]);
        }
      }
    }
  }

  /** A piece without the separator splits as itself. */
  lemma {:induction false} SplitNoSep(a: string, sep: char)
    requires sep !in a
    ensures Split(a, sep) == [a]
    decreases |a|
  {
    if a != [] {
      assert a[0] in a;
      assert forall c | c in a[1..] :: c in a;
      SplitNoSep(a[1..], sep);
      assert [a[0]] + a[1..] == a;
    }
  }

  /** Splitting `a + sep + b` yields `a` and then the pieces of `b`. */
  lemma {:induction false} SplitAfter(a: string, sep: char, b: string)
    requires sep !in a
    ensures Split(a + [sep] + b, sep) == [a] + Split(b, sep)
    decreases |a|
  {
    var s := a + [sep] + b;
    if a == [] {
      assert s[0] == sep && s[1..] == b;
    } else {
      assert a[0] in a;
      assert forall c | c in a[1..] :: c in a;
      assert s[0] == a[0] && s[1..] == a[1..] + [sep] + b;
      SplitAfter(a[1..], sep, b);
      assert [a[0]] + a[1..] == a;
    }
  }

  /** The other round trip: pieces free of the separator, joined and split again,
      come back unchanged. */
  lemma {:induction false} SplitOfJoin(parts: seq<string>, sep: char)
    requires |parts| >= 1
    requires forall i | 0 <= i < |parts| :: sep !in parts[i]
    ensures Split(Join(parts, [sep]), sep) == parts
    decreases |parts|
  {
    if |parts| == 1 {
      SplitNoSep(parts[0], sep);
    } else {
      SplitOfJoin(parts[1..], sep);
      assert Join(parts, [sep]) == parts[0] + [sep] + Join(parts[1..], [sep]);
      SplitAfter(parts[0], sep, Join(parts[1..], [sep]));
      assert [parts[0]] + parts[1..] == parts;
    }
  }

  // ----- strip -----

  /** ASCII model of `str.isspace`: space, tab, line feed, vertical tab, form feed,
      carriage return and the four information separators 0x1C-0x1F. */
  predicate IsSpace(c: char) {
    c == ' ' || (9 <= c as int <= 13) || (28 <= c as int <= 31)
  }

  predicate IsAsciiAlnum(c: char) {
    ('a' <= c <= 'z') || ('A' <= c <= 'Z') || ('0' <= c <= '9')
  }

  /** The number of whitespace characters `s` starts with. */
  function LeadingSpace(s: string): (n: nat)
    ensures n <= |s|
    ensures forall i | 0 <= i < n :: IsSpace(s[i])
    ensures n < |s| ==> !IsSpace(s[n])
    decreases |s|
  {
    if s != [] && IsSpace(s[0]) then 1 + LeadingSpace(s[1..]) else 0
  }

  /** The number of whitespace characters `s` ends with. */
  function TrailingSpace(s: string): (n: nat)
    ensures n <= |s|
    ensures forall i | |s| - n <= i < |s| :: IsSpace(s[i])
    ensures n < |s| ==> !IsSpace(s[|s| - n - 1])
    decreases |s|
  {
    if s != [] && IsSpace(s[|s| - 1]) then 1 + TrailingSpace(s[..|s| - 1]) else 0
  }

  /** Python's `s.strip()`. */
  function Strip(s: string): string {
    var rest := s[LeadingSpace(s)..];
    rest[..|rest| - TrailingSpace(rest)]
  }

  /** `strip` removes exactly the surrounding whitespace: what is left is the slice
      `s[a..b]`, which neither starts nor ends with whitespace, and everything cut
      off on either side is whitespace. */
  lemma StripSpec(s: string) returns (a: nat, b: nat)
    ensures a <= b <= |s| && Strip(s) == s[a..b]
    ensures Strip(s) == [] || (!IsSpace(Strip(s)[0]) && !IsSpace(Strip(s)[|Strip(s)| - 1]))
    ensures forall i | 0 <= i < a :: IsSpace(s[i])
    ensures forall i | b <= i < |s| :: IsSpace(s[i])
  {
    a := LeadingSpace(s);
    var rest := s[a..];
    var t := TrailingSpace(rest);
    b := |s| - t;
    assert Strip(s) == s[a..b];
    forall i | b <= i < |s| ensures IsSpace(s[i]) {
      assert s[i] == rest[i - a];
    }
    if a < b {
      assert Strip(s)[0] == s[a];
      assert Strip(s)[|Strip(s)| - 1] == rest[|rest| - t - 1];
    }
  }

  /** Text that neither starts nor ends with whitespace is left as it is. */
  lemma StripKeeps(s: string)
    requires s == [] || (!IsSpace(s[0]) && !IsSpace(s[|s| - 1]))
    ensures Strip(s) == s
  {
    assert s[0..] == s;
  }

  // ----- integers as decimal text -----

  function DigitChar(d: nat): char
    requires d < 10
  {
    "0123456789"[d]
  }

  /** Python's `str(n)` for a natural number. */
  function NatToString(n: nat): (s: string)
    ensures s != [] && forall i | 0 <= i < |s| :: '0' <= s[i] <= '9'
    decreases n
  {
    if n < 10 then [DigitChar(n)] else NatToString(n / 10) + [DigitChar(n % 10)]
  }

  /** Python's `str(i)` for an integer. */
  function IntToString(i: int): string {
    if i < 0 then "-" + NatToString(-i) else NatToString(i)
  }

  /** Decimal reading of a string of digits, the inverse of NatToString. */
  function ParseDigits(s: string): nat
    requires forall i | 0 <= i < |s| :: '0' <= s[i] <= '9'
    decreases |s|
  {
    if s == [] then 0 else ParseDigits(s[..|s| - 1]) * 10 + (s[|s| - 1] as int - '0' as int)
  }

  lemma {:induction false} ParseNatToString(n: nat)
    ensures ParseDigits(NatToString(n)) == n
    decreases n
  {
    if n >= 10 {
      var s := NatToString(n / 10) + [DigitChar(n % 10)];
      assert s[..|s| - 1] == NatToString(n / 10);
      ParseNatToString(n / 10);
    }
  }
}
