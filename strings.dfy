/** The handful of Python 2 byte-string operations the profile code relies on,
    written over `string` (= seq<char>) with the same edge-case behaviour. */
module Strings {

  /** Characters that `str.split()` (no argument) treats as separators. */
  predicate IsSpace(c: char) {
    c == ' ' || c == '\t' || c == '\n' || c == '\r' || c == '\U{0B}' || c == '\U{0C}'
  }

  /** The character set of `strip(' \t\n\r')`, used on every line read from a file. */
  const LineJunk: set<char> := {' ', '\t', '\n', '\r'}

  /** The character set of `strip()` with no argument. */
  const Whitespace: set<char> := {' ', '\t', '\n', '\r', '\U{0B}', '\U{0C}'}

  predicate StartsWith(s: string, p: string) {
    |p| <= |s| && s[..|p|] == p
  }

  predicate EndsWith(s: string, p: string) {
    |p| <= |s| && s[|s| - |p|..] == p
  }

  /** Python's `p in s`. */
  predicate Contains(s: string, p: string)
    decreases |s|
  {
    StartsWith(s, p) || (s != [] && Contains(s[1..], p))
  }

  /** Python's `s.index(p)` / `s.find(p)`: the first position of `p`, or -1. */
  function IndexOf(s: string, p: string): (r: int)
    ensures r < 0 <==> !Contains(s, p)
    ensures 0 <= r ==> r + |p| <= |s| && StartsWith(s[r..], p)
    decreases |s|
  {
    if StartsWith(s, p) then 0
    else if s == [] then -1
    else
      var k := IndexOf(s[1..], p);
      if k < 0 then -1 else k + 1
  }

  /** Python's `s.rfind(p)`: the last position of `p`, or -1 (|s| for an empty `p`). */
  function RFind(s: string, p: string): (r: int)
    ensures -1 <= r
    ensures 0 <= r ==> r + |p| <= |s| && s[r..r + |p|] == p
    ensures EndsWith(s, p) ==> r == |s| - |p|
    decreases |s|
  {
    if |s| < |p| then -1
    else if s[|s| - |p|..] == p then |s| - |p|
    else RFind(s[..|s| - 1], p)
  }

  /** Python's `s.replace(pat, rep)` for a non-empty `pat`: every occurrence,
      scanning left to right, without overlaps. */
  function ReplaceAll(s: string, pat: string, rep: string): string
    requires pat != []
    decreases |s|
  {
    if |s| < |pat| then s
    else if s[..|pat|] == pat then rep + ReplaceAll(s[|pat|..], pat, rep)
    else [s[0]] + ReplaceAll(s[1..], pat, rep)
  }

  /** A token of `split()`: non-empty and free of separators. */
  predicate IsToken(t: string) {
    t != [] && forall j :: 0 <= j < |t| ==> !IsSpace(t[j])
  }

  /** Length of the run of non-separators at the head of `s`. */
  function TokenLength(s: string): (n: nat)
    ensures n <= |s|
    ensures forall j :: 0 <= j < n ==> !IsSpace(s[j])
    ensures n < |s| ==> IsSpace(s[n])
  {
    if s == [] || IsSpace(s[0]) then 0 else 1 + TokenLength(s[1..])
  }

  /** Python's `s.split()`: the maximal runs of non-whitespace, in order. */
  function Split(s: string): (r: seq<string>)
    ensures forall i :: 0 <= i < |r| ==> IsToken(r[i])
    decreases |s|
  {
    if s == [] then []
    else if IsSpace(s[0]) then Split(s[1..])
    else
      var n := TokenLength(s);
      [s[..n]] + Split(s[n..])
  }

  /** Python's `s.split(c)` for a one-character separator: always at least one
      piece, and no piece holds the separator. */
  function SplitOn(s: string, c: char): (r: seq<string>)
    ensures |r| >= 1
    ensures forall i :: 0 <= i < |r| ==> c !in r[i]
    decreases |s|
  {
    if s == [] then [[]]
    else
      var rest := SplitOn(s[1..], c);
      if s[0] == c then [[]] + rest
      else
        assert forall i :: 1 <= i < |rest| ==> rest[1..][i - 1] == rest[i];
        [[s[0]] + rest[0]] + rest[1..]
  }

  /** Python's `c.join(pieces)` for a one-character separator. */
  function Join(pieces: seq<string>, c: char): string
    requires |pieces| >= 1
  {
    if |pieces| == 1 then pieces[0] else pieces[0] + [c] + Join(pieces[1..], c)
  }

  /** Splitting on a character and joining back gives the string back, so the
      fields of a location line are exactly its comma-separated pieces. */
  lemma {:induction false} JoinSplitOn(s: string, c: char)
    ensures Join(SplitOn(s, c), c) == s
    decreases |s|
  {
    if s != [] {
      var rest := SplitOn(s[1..], c);
      JoinSplitOn(s[1..], c);
      if s[0] == c {
        assert ([[]] + rest)[1..] == rest;
        assert Join([[]] + rest, c) == [] + [c] + Join(rest, c);
      } else {
        JoinHead(s[0], rest, c);
      }
      ConsSelf(s);
    }
  }

  /** A text without the separator is one piece. */
  lemma {:induction false} SplitOnNone(s: string, c: char)
    requires c !in s
    ensures SplitOn(s, c) == [s]
    decreases |s|
  {
    if s != [] {
      assert c !in s[1..];
      SplitOnNone(s[1..], c);
      ConsSelf(s);
    }
  }

  /** A separator-free head followed by the separator is the first piece. */
  lemma {:induction false} SplitOnPrefix(n: string, c: char, rest: string)
    requires c !in n
    ensures SplitOn(n + [c] + rest, c) == [n] + SplitOn(rest, c)
    decreases |n|
  {
    var s := n + [c] + rest;
    if n == [] {
      assert s == [c] + rest && s[1..] == rest;
    } else {
      assert s[0] == n[0] && s[1..] == n[1..] + [c] + rest;
      assert c !in n[1..];
      SplitOnPrefix(n[1..], c, rest);
      var tail := SplitOn(rest, c);
      assert SplitOn(s[1..], c) == [n[1..]] + tail;
      assert ([n[1..]] + tail)[1..] == tail;
      ConsSelf(n);
    }
  }

  /** Gluing a character to the front of the first piece glues it to the front
      of the joined text. */
  lemma JoinHead(a: char, pieces: seq<string>, c: char)
    requires |pieces| >= 1
    ensures Join([[a] + pieces[0]] + pieces[1..], c) == [a] + Join(pieces, c)
  {
    var q := [[a] + pieces[0]] + pieces[1..];
    assert q[1..] == pieces[1..];
  }

  /** Python's `s.lstrip(chars)`. */
  function StripLeft(s: string, chars: set<char>): (r: string)
    ensures |r| <= |s|
  {
    if s != [] && s[0] in chars then StripLeft(s[1..], chars) else s
  }

  /** Python's `s.rstrip(chars)`. */
  function StripRight(s: string, chars: set<char>): (r: string)
    ensures |r| <= |s|
  {
    if s != [] && s[|s| - 1] in chars then StripRight(s[..|s| - 1], chars) else s
  }

  /** Python's `s.strip(chars)`. */
  function Strip(s: string, chars: set<char>): (r: string)
    ensures |r| <= |s|
  {
    StripRight(StripLeft(s, chars), chars)
  }

  /** Stripping leaves a string that neither starts nor ends with a stripped
      character as it is. */
  lemma StripUntouched(s: string, chars: set<char>)
    requires s != [] && s[0] !in chars && s[|s| - 1] !in chars
    ensures Strip(s, chars) == s
  {
    assert StripLeft(s, chars) == s;
  }

  /** One differing position among the first |p| rules out the prefix. */
  lemma NotStartsWithAt(s: string, p: string, i: nat)
    requires i < |p| && i < |s| && s[i] != p[i]
    ensures !StartsWith(s, p)
  {
    if |p| <= |s| {
      assert s[..|p|][i] == s[i];
    }
  }

  /** An occurrence at a known position. */
  lemma {:induction false} ContainsAt(s: string, p: string, k: nat)
    requires k + |p| <= |s| && s[k..k + |p|] == p
    ensures Contains(s, p)
    decreases k
  {
    if k == 0 {
      assert s[..|p|] == s[0..|p|];
    } else {
      assert s[1..][k - 1..k - 1 + |p|] == s[k..k + |p|];
      ContainsAt(s[1..], p, k - 1);
    }
  }

  lemma StartsWithSelf(s: string)
    ensures StartsWith(s, s)
  {
    assert s[..|s|] == s;
  }

  function LowerChar(c: char): char {
    if 'A' <= c <= 'Z' then (c as int + 32) as char else c
  }

  function UpperChar(c: char): char {
    if 'a' <= c <= 'z' then (c as int - 32) as char else c
  }

  /** Python 2 `str.lower()`: ASCII letters only. */
  function Lower(s: string): (r: string)
    ensures |r| == |s| && forall i :: 0 <= i < |s| ==> r[i] == LowerChar(s[i])
  {
    seq(|s|, i requires 0 <= i < |s| => LowerChar(s[i]))
  }

  /** Python 2 `str.upper()`: ASCII letters only. */
  function Upper(s: string): (r: string)
    ensures |r| == |s| && forall i :: 0 <= i < |s| ==> r[i] == UpperChar(s[i])
  {
    seq(|s|, i requires 0 <= i < |s| => UpperChar(s[i]))
  }

  /** Python's `str(n)` for a natural number. */
  function NatToString(n: nat): (r: string)
    ensures r != [] && forall i :: 0 <= i < |r| ==> '0' <= r[i] <= '9'
  {
    var d := ['0' + (n % 10) as char];
    if n < 10 then d else NatToString(n / 10) + d
  }

  /** Python's slice `s[a:b]` where `a` is non-negative and `b` may be -1
      (meaning "one before the end"). */
  function Slice(s: string, a: nat, b: int): (r: string)
    requires -1 <= b
    ensures |r| <= |s|
  {
    var hi := if b < 0 then |s| - 1 else if b > |s| then |s| else b;
    if hi < 0 || a >= hi then [] else s[a..hi]
  }

  /** True when no character of `s` occurs in `p`. */
  predicate SharesNoChar(s: string, p: string) {
    forall i :: 0 <= i < |s| ==> s[i] !in p
  }

  // ---------------------------------------------------------------------------
  // Facts about ReplaceAll used by the profile pipelines
  // ---------------------------------------------------------------------------

  /** The two ways a ReplaceAll step can go, once `s` is long enough. */
  lemma ReplaceAllStep(s: string, pat: string, rep: string)
    requires pat != [] && |pat| <= |s|
    ensures StartsWith(s, pat) ==> ReplaceAll(s, pat, rep) == rep + ReplaceAll(s[|pat|..], pat, rep)
    ensures !StartsWith(s, pat) ==> ReplaceAll(s, pat, rep) == [s[0]] + ReplaceAll(s[1..], pat, rep)
  {
  }

  /** A string starts with `p` exactly when its head is `p`'s head and its
      tail starts with the rest of `p`. */
  lemma ConsStartsWith(c: char, t: string, p: string)
    requires p != []
    ensures StartsWith([c] + t, p) <==> c == p[0] && StartsWith(t, p[1..])
  {
    var s := [c] + t;
    assert s[1..] == t;
    if |p| <= |s| {
      assert s[..|p|] == [c] + t[..|p| - 1];
      assert p == [p[0]] + p[1..];
    }
  }

  lemma ConsSelf(s: string)
    requires s != []
    ensures [s[0]] + s[1..] == s
  {
  }

  /** ReplaceAll changes nothing in a string holding no occurrence. */
  lemma {:induction false} ReplaceAllNoOccurrence(s: string, pat: string, rep: string)
    requires pat != [] && !Contains(s, pat)
    ensures ReplaceAll(s, pat, rep) == s
    decreases |s|
  {
    if |pat| <= |s| {
      ReplaceAllStep(s, pat, rep);
      ReplaceAllNoOccurrence(s[1..], pat, rep);
      ConsSelf(s);
    }
  }

  /** A prefix in which the first character of the pattern never occurs is
      copied through untouched. */
  lemma {:induction false} ReplaceAllKeepsPrefix(a: string, b: string, pat: string, rep: string)
    requires pat != [] && pat[0] !in a
    ensures ReplaceAll(a + b, pat, rep) == a + ReplaceAll(b, pat, rep)
    decreases |a|
  {
    if a == [] {
      assert a + b == b;
    } else {
      var s := a + b;
      assert s[0] == a[0] && s[1..] == a[1..] + b;
      if |s| < |pat| {
        assert ReplaceAll(b, pat, rep) == b;
      } else {
        assert s[..|pat|][0] == s[0];
        ReplaceAllStep(s, pat, rep);
        ReplaceAllKeepsPrefix(a[1..], b, pat, rep);
        ConsSelf(a);
      }
    }
  }

  lemma {:induction false} NotContainsShort(s: string, p: string)
    requires |s| < |p|
    ensures !Contains(s, p)
    decreases |s|
  {
    if s != [] { NotContainsShort(s[1..], p); }
  }

  /** A character that does not occur in the pattern splits the replacement:
      no occurrence can straddle it. */
  lemma {:induction false} ReplaceAllAround(a: string, c: char, b: string, pat: string, rep: string)
    requires pat != [] && c !in pat
    ensures ReplaceAll(a + [c] + b, pat, rep) == ReplaceAll(a, pat, rep) + [c] + ReplaceAll(b, pat, rep)
    decreases |a|, 1
  {
    if |a| >= |pat| && StartsWith(a, pat) {
      AroundMatchCase(a, c, b, pat, rep);
    } else {
      AroundNoMatchCase(a, c, b, pat, rep);
    }
  }

  lemma {:induction false} AroundMatchCase(a: string, c: char, b: string, pat: string, rep: string)
    requires pat != [] && c !in pat && |a| >= |pat| && StartsWith(a, pat)
    ensures ReplaceAll(a + [c] + b, pat, rep) == ReplaceAll(a, pat, rep) + [c] + ReplaceAll(b, pat, rep)
    decreases |a|, 0
  {
    AroundMatch(a, c, b, pat, rep);
    ReplaceAllAround(a[|pat|..], c, b, pat, rep);
  }

  lemma {:induction false} AroundNoMatchCase(a: string, c: char, b: string, pat: string, rep: string)
    requires pat != [] && c !in pat && !(|a| >= |pat| && StartsWith(a, pat))
    ensures ReplaceAll(a + [c] + b, pat, rep) == ReplaceAll(a, pat, rep) + [c] + ReplaceAll(b, pat, rep)
    decreases |a|, 0
  {
    if a == [] {
      assert a + [c] + b == [c] + b;
      ReplaceAllKeepsPrefix([c], b, pat, rep);
    } else {
      var s := a + [c] + b;
      AroundNoMatch(a, c, b, pat, rep);
      assert s[0] == a[0] && s[1..] == a[1..] + [c] + b;
      ReplaceAllAround(a[1..], c, b, pat, rep);
      ConsAssoc(a[0], ReplaceAll(a[1..], pat, rep), c, ReplaceAll(b, pat, rep));
    }
  }

  lemma ConsAssoc(x: char, y: string, c: char, z: string)
    ensures [x] + (y + [c] + z) == ([x] + y) + [c] + z
  {
  }

  lemma AroundMatch(a: string, c: char, b: string, pat: string, rep: string)
    requires pat != [] && |a| >= |pat| && StartsWith(a, pat)
    ensures ReplaceAll(a + [c] + b, pat, rep) == rep + ReplaceAll(a[|pat|..] + [c] + b, pat, rep)
    ensures ReplaceAll(a, pat, rep) == rep + ReplaceAll(a[|pat|..], pat, rep)
  {
    var s := a + [c] + b;
    assert s[..|pat|] == a[..|pat|];
    assert s[|pat|..] == a[|pat|..] + [c] + b;
    ReplaceAllStep(s, pat, rep);
    ReplaceAllStep(a, pat, rep);
  }

  lemma AroundNoMatch(a: string, c: char, b: string, pat: string, rep: string)
    requires pat != [] && c !in pat && !(|a| >= |pat| && StartsWith(a, pat))
    ensures ReplaceAll(a + [c] + b, pat, rep) == [(a + [c] + b)[0]] + ReplaceAll((a + [c] + b)[1..], pat, rep)
    ensures a != [] ==> ReplaceAll(a, pat, rep) == [a[0]] + ReplaceAll(a[1..], pat, rep)
  {
    var s := a + [c] + b;
    if |s| >= |pat| {
      if |a| >= |pat| {
        assert s[..|pat|] == a[..|pat|];
      } else {
        assert s[..|pat|][|a|] == c;
      }
      ReplaceAllStep(s, pat, rep);
    } else {
      NotContainsShort(s[1..], pat);
      ReplaceAllNoOccurrence(s[1..], pat, rep);
      ConsSelf(s);
    }
    if a != [] {
      if |a| >= |pat| {
        ReplaceAllStep(a, pat, rep);
      } else {
        NotContainsShort(a[1..], pat);
        ReplaceAllNoOccurrence(a[1..], pat, rep);
        ConsSelf(a);
      }
    }
  }

  /** IndexOf finds the first occurrence: none starts before it. */
  lemma {:induction false} IndexOfFirst(s: string, p: string)
    ensures forall i :: 0 <= i < IndexOf(s, p) ==> !StartsWith(s[i..], p)
    decreases |s|
  {
    if !StartsWith(s, p) && s != [] {
      IndexOfFirst(s[1..], p);
      forall i | 0 <= i < IndexOf(s, p)
        ensures !StartsWith(s[i..], p)
      {
        if i == 0 {
          assert s[0..] == s;
        } else {
          assert s[i..] == s[1..][i - 1..];
        }
      }
    }
  }

  /** Where no occurrence starts before `k`, ReplaceAll copies `s[..k]` as it is. */
  lemma {:induction false} ReplaceAllSkipPrefix(s: string, pat: string, rep: string, k: nat)
    requires pat != [] && k <= |s|
    requires forall i :: 0 <= i < k ==> !StartsWith(s[i..], pat)
    ensures ReplaceAll(s, pat, rep) == s[..k] + ReplaceAll(s[k..], pat, rep)
    decreases k
  {
    if k == 0 {
      assert s[..0] == [] && s[0..] == s;
    } else {
      assert !StartsWith(s, pat) by { assert s[0..] == s; }
      forall i | 0 <= i < k - 1
        ensures !StartsWith(s[1..][i..], pat)
      {
        assert s[1..][i..] == s[i + 1..];
      }
      ReplaceAllSkipPrefix(s[1..], pat, rep, k - 1);
      SkipOne(s, pat, rep, k);
    }
  }

  lemma SkipOne(s: string, pat: string, rep: string, k: nat)
    requires pat != [] && 0 < k <= |s| && !StartsWith(s, pat)
    requires ReplaceAll(s[1..], pat, rep) == s[1..][..k - 1] + ReplaceAll(s[1..][k - 1..], pat, rep)
    ensures ReplaceAll(s, pat, rep) == s[..k] + ReplaceAll(s[k..], pat, rep)
  {
    assert s[1..][k - 1..] == s[k..];
    assert s[..k] == [s[0]] + s[1..][..k - 1];
    if |s| < |pat| {
      assert ReplaceAll(s, pat, rep) == s;
      assert ReplaceAll(s[k..], pat, rep) == s[k..];
      assert s[..k] + s[k..] == s;
    } else {
      ReplaceAllStep(s, pat, rep);
    }
  }

  /** A longer pattern can only occur where its prefix does. */
  lemma StartsWithLonger(s: string, p: string, q: string)
    requires StartsWith(s, p + q)
    ensures StartsWith(s, p)
  {
    assert s[..|p|] == (p + q)[..|p|];
  }

  /** Replacing with a non-empty text that shares no character with the
      pattern leaves no occurrence behind. */
  lemma {:induction false} ReplaceAllRemovesAll(s: string, pat: string, rep: string)
    requires pat != [] && rep != [] && SharesNoChar(rep, pat)
    ensures !Contains(ReplaceAll(s, pat, rep), pat)
    decreases |s|
  {
    if |s| < |pat| {
      NotContainsShort(s, pat);
    } else {
      ReplaceAllStep(s, pat, rep);
      if StartsWith(s, pat) {
        ReplaceAllRemovesAll(s[|pat|..], pat, rep);
        NotContainsAfterForeign(rep, ReplaceAll(s[|pat|..], pat, rep), pat);
      } else {
        var r := ReplaceAll(s[1..], pat, rep);
        ReplaceAllRemovesAll(s[1..], pat, rep);
        var q := pat[1..];
        forall i | 0 <= i < |q| ensures q[i] in pat { assert q[i] == pat[i + 1]; }
        ReplaceAllPrefixBack(s[1..], q, pat, rep);
        ConsStartsWith(s[0], r, pat);
        ConsStartsWith(s[0], s[1..], pat);
        ConsSelf(s);
        assert !StartsWith([s[0]] + r, pat);
        assert ([s[0]] + r)[1..] == r;
      }
    }
  }

  /** A text made of characters foreign to the pattern cannot start an occurrence. */
  lemma {:induction false} NotContainsAfterForeign(a: string, b: string, pat: string)
    requires pat != [] && SharesNoChar(a, pat) && !Contains(b, pat)
    ensures !Contains(a + b, pat)
    decreases |a|
  {
    if a == [] {
      assert a + b == b;
    } else {
      assert (a + b)[0] == a[0] && a[0] !in pat;
      assert pat[0] in pat;
      assert (a + b)[1..] == a[1..] + b;
      ConsSelf(a + b);
      ConsStartsWith(a[0], a[1..] + b, pat);
      NotContainsAfterForeign(a[1..], b, pat);
    }
  }

  /** If the replaced text starts with characters of the pattern, the original
      did too (the replacement text cannot supply them). */
  lemma {:induction false} ReplaceAllPrefixBack(s: string, q: string, pat: string, rep: string)
    requires pat != [] && rep != [] && SharesNoChar(rep, pat)
    requires forall i :: 0 <= i < |q| ==> q[i] in pat
    ensures StartsWith(ReplaceAll(s, pat, rep), q) ==> StartsWith(s, q)
    decreases |s|
  {
    if q != [] && |s| >= |pat| {
      ReplaceAllStep(s, pat, rep);
      if StartsWith(s, pat) {
        var r := ReplaceAll(s, pat, rep);
        assert r[0] == rep[0] && rep[0] !in pat && q[0] in pat;
        assert !StartsWith(r, q) by {
          if |q| <= |r| { assert r[..|q|][0] == r[0]; }
        }
      } else {
        var r := ReplaceAll(s[1..], pat, rep);
        assert forall i :: 0 <= i < |q[1..]| ==> q[1..][i] == q[i + 1];
        ReplaceAllPrefixBack(s[1..], q[1..], pat, rep);
        ConsStartsWith(s[0], r, q);
        ConsStartsWith(s[0], s[1..], q);
        ConsSelf(s);
      }
    }
  }

  /** Replacing a one-character pattern by a different character leaves none of it. */
  lemma {:induction false} ReplaceCharGone(s: string, c: char, d: char)
    requires c != d
    ensures c !in ReplaceAll(s, [c], [d])
    decreases |s|
  {
    if |s| >= 1 {
      ReplaceCharGone(s[1..], c, d);
    }
  }

  /** Replacing one character by another maps the string position by
      position. */
  lemma {:induction false} ReplaceCharAt(s: string, c: char, d: char)
    ensures |ReplaceAll(s, [c], [d])| == |s|
    ensures forall i :: 0 <= i < |s| ==> ReplaceAll(s, [c], [d])[i] == if s[i] == c then d else s[i]
    decreases |s|
  {
    if s != [] {
      ReplaceCharAt(s[1..], c, d);
      var r := ReplaceAll(s, [c], [d]);
      var t := ReplaceAll(s[1..], [c], [d]);
      if s[..1] == [c] {
        assert r == [d] + t;
      } else {
        assert r == [s[0]] + t && s[0] != c;
      }
      forall i | 0 < i < |s|
        ensures r[i] == if s[i] == c then d else s[i]
      {
        assert s[1..][i - 1] == s[i];
      }
    }
  }

  /** Replacing with a non-empty text never empties a non-empty string. */
  lemma ReplaceAllNonEmpty(s: string, pat: string, rep: string)
    requires pat != [] && s != [] && rep != []
    ensures ReplaceAll(s, pat, rep) != []
  {
    if |s| >= |pat| {
      ReplaceAllStep(s, pat, rep);
    }
  }

  /** A character found neither in the text nor in the replacement is not in
      the result. */
  lemma {:induction false} ReplaceAllNoChar(s: string, pat: string, rep: string, c: char)
    requires pat != [] && c !in s && c !in rep
    ensures c !in ReplaceAll(s, pat, rep)
    decreases |s|
  {
    if |s| >= |pat| {
      ReplaceAllStep(s, pat, rep);
      if StartsWith(s, pat) {
        assert c !in s[|pat|..];
        ReplaceAllNoChar(s[|pat|..], pat, rep, c);
      } else {
        assert c !in s[1..];
        ReplaceAllNoChar(s[1..], pat, rep, c);
      }
    }
  }

  /** Joining one more piece appends the separator and the piece. */
  lemma {:induction false} JoinSnoc(pieces: seq<string>, last: string, c: char)
    requires |pieces| >= 1
    ensures Join(pieces + [last], c) == Join(pieces, c) + [c] + last
    decreases |pieces|
  {
    var all := pieces + [last];
    assert all[0] == pieces[0];
    if |pieces| == 1 {
      assert all[1..] == [last];
    } else {
      assert all[1..] == pieces[1..] + [last];
      JoinSnoc(pieces[1..], last, c);
      JoinAssoc(pieces[0], c, Join(pieces[1..], c), last);
    }
  }

  lemma JoinAssoc(a: string, c: char, b: string, d: string)
    ensures a + [c] + (b + [c] + d) == (a + [c] + b) + [c] + d
  {
  }

  /** Joining pieces free of the separator and splitting again gives the
      pieces back. */
  lemma {:induction false} SplitOnJoin(pieces: seq<string>, c: char)
    requires |pieces| >= 1 && forall i :: 0 <= i < |pieces| ==> c !in pieces[i]
    ensures SplitOn(Join(pieces, c), c) == pieces
    decreases |pieces|
  {
    if |pieces| == 1 {
      SplitOnNone(pieces[0], c);
    } else {
      var rest := pieces[1..];
      assert forall i :: 0 <= i < |rest| ==> rest[i] == pieces[i + 1];
      SplitOnJoin(rest, c);
      SplitOnPrefix(pieces[0], c, Join(rest, c));
      assert [pieces[0]] + rest == pieces;
    }
  }

  /** Deleting every `tag + [c]` where the first `tag` is followed by `c`
      keeps the text before that occurrence and drops the occurrence. */
  lemma DeleteFirst(s: string, tag: string, i: nat)
    requires tag != [] && i == IndexOf(s, tag) && i + |tag| < |s|
    ensures ReplaceAll(s, tag + [s[i + |tag|]], "") ==
            s[..i] + ReplaceAll(s[i + |tag| + 1..], tag + [s[i + |tag|]], "")
  {
    var pat := tag + [s[i + |tag|]];
    NoLongerBefore(s, tag, s[i + |tag|], i);
    ReplaceAllSkipPrefix(s, pat, "", i);
    MatchAt(s, tag, i);
  }

  lemma NoLongerBefore(s: string, tag: string, c: char, i: int)
    requires tag != [] && i == IndexOf(s, tag)
    ensures forall j :: 0 <= j < i ==> !StartsWith(s[j..], tag + [c])
  {
    IndexOfFirst(s, tag);
    forall j | 0 <= j < i
      ensures !StartsWith(s[j..], tag + [c])
    {
      if StartsWith(s[j..], tag + [c]) {
        StartsWithLonger(s[j..], tag, [c]);
      }
    }
  }

  lemma MatchAt(s: string, tag: string, i: nat)
    requires tag != [] && i == IndexOf(s, tag) && i + |tag| < |s|
    ensures ReplaceAll(s[i..], tag + [s[i + |tag|]], "") == ReplaceAll(s[i + |tag| + 1..], tag + [s[i + |tag|]], "")
  {
    MatchSlices(s, tag, i);
    DeleteAtStart(s[i..], tag + [s[i + |tag|]]);
  }

  lemma MatchSlices(s: string, tag: string, i: nat)
    requires tag != [] && i == IndexOf(s, tag) && i + |tag| < |s|
    ensures var pat := tag + [s[i + |tag|]];
      |pat| <= |s[i..]| && s[i..][..|pat|] == pat && s[i..][|pat|..] == s[i + |tag| + 1..]
  {
    var rest := s[i..];
    assert rest[..|tag|] == tag;
  }

  lemma DeleteAtStart(s: string, pat: string)
    requires pat != [] && |pat| <= |s| && s[..|pat|] == pat
    ensures ReplaceAll(s, pat, "") == ReplaceAll(s[|pat|..], pat, "")
  {
    assert "" + ReplaceAll(s[|pat|..], pat, "") == ReplaceAll(s[|pat|..], pat, "");
  }

  /** Replacing in joined pieces that the replacement leaves alone changes
      nothing, when the pattern cannot straddle the separator. */
  lemma {:induction false} JoinReplaceFixed(pieces: seq<string>, c: char, pat: string, rep: string)
    requires |pieces| >= 1 && pat != [] && c !in pat
    requires forall i :: 0 <= i < |pieces| ==> ReplaceAll(pieces[i], pat, rep) == pieces[i]
    ensures ReplaceAll(Join(pieces, c), pat, rep) == Join(pieces, c)
    decreases |pieces|
  {
    if |pieces| > 1 {
      var rest := pieces[1..];
      assert forall i :: 0 <= i < |rest| ==> rest[i] == pieces[i + 1];
      JoinReplaceFixed(rest, c, pat, rep);
      ReplaceAllAround(pieces[0], c, Join(rest, c), pat, rep);
    }
  }

  /** Replacing by a text of the same length keeps the length. */
  lemma {:induction false} ReplaceSameLength(s: string, pat: string, rep: string)
    requires pat != [] && |pat| == |rep|
    ensures |ReplaceAll(s, pat, rep)| == |s|
    decreases |s|
  {
    if |s| >= |pat| {
      if s[..|pat|] == pat {
        ReplaceSameLength(s[|pat|..], pat, rep);
      } else {
        ReplaceSameLength(s[1..], pat, rep);
      }
    }
  }

  /** Whether some line satisfies `p`. */
  predicate Any(lines: seq<string>, p: string -> bool) {
    exists k :: 0 <= k < |lines| && p(lines[k])
  }

  /** Some line of `init + [last]` satisfies `p` exactly when one of `init`
      does or `last` does. */
  lemma AnySnoc(lines: seq<string>, p: string -> bool)
    requires lines != []
    ensures Any(lines, p) <==> Any(lines[..|lines| - 1], p) || p(lines[|lines| - 1])
  {
    var init := lines[..|lines| - 1];
    if Any(lines, p) && !p(lines[|lines| - 1]) {
      var k :| 0 <= k < |lines| && p(lines[k]);
      assert init[k] == lines[k];
    }
    if Any(init, p) {
      var k :| 0 <= k < |init| && p(init[k]);
      assert lines[k] == init[k];
    }
  }

  /** Some line of `a + b` satisfies `p` exactly when one of `a` or of `b` does. */
  lemma AnyConcat(a: seq<string>, b: seq<string>, p: string -> bool)
    ensures Any(a + b, p) <==> Any(a, p) || Any(b, p)
  {
    if Any(a + b, p) {
      var k :| 0 <= k < |a + b| && p((a + b)[k]);
      if k >= |a| {
        assert (a + b)[k] == b[k - |a|];
      }
    }
    if Any(a, p) {
      var k :| 0 <= k < |a| && p(a[k]);
      assert (a + b)[k] == a[k];
    }
    if Any(b, p) {
      var k :| 0 <= k < |b| && p(b[k]);
      assert (a + b)[|a| + k] == b[k];
    }
  }
}
