/**
 * String helpers shared by the Java and TypeScript code: the whitespace sets
 * of both languages, trimming, prefix/suffix tests, substring search and the
 * case mappings the code relies on. Strings are sequences of Unicode code points.
 */
module Text {
  /** JavaScript WhiteSpace and LineTerminator code points: the set that
      String.prototype.trim removes and that the regular expression class \s matches. */
  predicate IsJsSpace(c: char)
  {
    c == '\t' || c == '\n' || c == '\U{000B}' || c == '\U{000C}' || c == '\r' || c == ' '
    || c == '\U{00A0}' || c == '\U{1680}' || ('\U{2000}' <= c <= '\U{200A}')
    || c == '\U{2028}' || c == '\U{2029}' || c == '\U{202F}' || c == '\U{205F}'
    || c == '\U{3000}' || c == '\U{FEFF}'
  }

  /** JavaScript line terminators (the characters `.` does not match). */
  predicate IsLineTerminator(c: char)
  {
    c == '\n' || c == '\r' || c == '\U{2028}' || c == '\U{2029}'
  }

  /** The characters java.lang.String.trim removes: every code point up to U+0020. */
  predicate IsJavaTrimmable(c: char)
  {
    c <= ' '
  }

  /** java.lang.Character.isWhitespace, the test behind String.isBlank. */
  predicate IsJavaWhitespace(c: char)
  {
    ('\t' <= c <= '\r') || ('\U{001C}' <= c <= ' ')
    || c == '\U{1680}' || ('\U{2000}' <= c <= '\U{2006}') || ('\U{2008}' <= c <= '\U{200A}')
    || c == '\U{2028}' || c == '\U{2029}' || c == '\U{205F}' || c == '\U{3000}'
  }

  predicate AllSatisfy(s: string, p: char -> bool)
  {
    forall k :: 0 <= k < |s| ==> p(s[k])
  }

  /** String.isBlank in Java: empty or whitespace only. */
  predicate JavaIsBlank(s: string)
  {
    AllSatisfy(s, IsJavaWhitespace)
  }

  /** How many leading characters of `s` satisfy `sp`. */
  function LeadCount(s: string, sp: char -> bool): (n: nat)
    ensures n <= |s|
    ensures forall k :: 0 <= k < n ==> sp(s[k])
    ensures n < |s| ==> !sp(s[n])
    decreases |s|
  {
    if s != [] && sp(s[0]) then 1 + LeadCount(s[1..], sp) else 0
  }

  /** Where the run of trailing characters of `s` satisfying `sp` begins. */
  function TrailStart(s: string, sp: char -> bool): (n: nat)
    ensures n <= |s|
    ensures forall k :: n <= k < |s| ==> sp(s[k])
    ensures n > 0 ==> !sp(s[n - 1])
    decreases |s|
  {
    if s != [] && sp(s[|s| - 1]) then TrailStart(s[..|s| - 1], sp) else |s|
  }

  /** Drops the leading characters satisfying `sp`. */
  function TrimStart(s: string, sp: char -> bool): (r: string)
    ensures r != [] ==> !sp(r[0])
  {
    s[LeadCount(s, sp)..]
  }

  /** Drops the trailing characters satisfying `sp`. */
  function TrimEnd(s: string, sp: char -> bool): (r: string)
    ensures r != [] ==> !sp(r[|r| - 1])
  {
    s[..TrailStart(s, sp)]
  }

  /** Both ends: the leading and then the trailing `sp` characters dropped. */
  function Trim(s: string, sp: char -> bool): (r: string)
    ensures r != [] ==> !sp(r[0]) && !sp(r[|r| - 1])
  {
    var a := TrimStart(s, sp);
    assert TrimEnd(a, sp) != [] ==> TrimEnd(a, sp)[0] == a[0];
    TrimEnd(a, sp)
  }

  /** The trim is the piece of `s` right after its leading `sp` characters... */
  lemma TrimIsSlice(s: string, sp: char -> bool)
    ensures var i := LeadCount(s, sp);
            var r := Trim(s, sp);
            i + |r| <= |s| && r == s[i..i + |r|]
  {
    var i := LeadCount(s, sp);
    var a := s[i..];
    assert Trim(s, sp) == a[..TrailStart(a, sp)];
  }

  /** ... and only `sp` characters follow it. */
  lemma TrimCutsOnlyTrailing(s: string, sp: char -> bool)
    ensures var i := LeadCount(s, sp);
            forall k :: i + |Trim(s, sp)| <= k < |s| ==> sp(s[k])
  {
    var i := LeadCount(s, sp);
    var a := s[i..];
    var j := TrailStart(a, sp);
    assert |Trim(s, sp)| == j;
    forall k | i + j <= k < |s|
      ensures sp(s[k])
    {
      assert s[k] == a[k - i];
    }
  }

  lemma TrimStartStops(s: string, sp: char -> bool)
    requires s != [] && !sp(s[0])
    ensures TrimStart(s, sp) == s
  {
  }

  lemma TrimEndStops(s: string, sp: char -> bool)
    requires s != [] && !sp(s[|s| - 1])
    ensures TrimEnd(s, sp) == s
  {
  }

  /** Text whose ends are not trimmed is its own trim. */
  lemma TrimStops(s: string, sp: char -> bool)
    requires s != [] && !sp(s[0]) && !sp(s[|s| - 1])
    ensures Trim(s, sp) == s
  {
    TrimStartStops(s, sp);
    TrimEndStops(s, sp);
  }

  /** String.prototype.trim. */
  function JsTrim(s: string): string { Trim(s, IsJsSpace) }

  /** java.lang.String.trim. */
  function JavaTrim(s: string): string { Trim(s, IsJavaTrimmable) }

  /** Surrounding `t` by characters that are trimmed away gives `t` back,
      provided `t` itself has nothing to trim at its ends. */
  lemma TrimPadded(w1: string, t: string, w2: string, sp: char -> bool)
    requires AllSatisfy(w1, sp) && AllSatisfy(w2, sp)
    requires t != [] ==> !sp(t[0]) && !sp(t[|t| - 1])
    ensures Trim(w1 + t + w2, sp) == t
  {
    var s := w1 + t + w2;
    if t == [] {
      assert s == w1 + w2;
      LeadCountPadded(s, [], sp);
      assert s + [] == s;
    } else {
      LeadCountPadded(w1, t + w2, sp);
      assert s == w1 + (t + w2);
      assert TrimStart(s, sp) == t + w2;
      TrailStartPadded(t, w2, sp);
    }
  }

  /** The leading run of `w + u` is `w` when `u` does not continue it. */
  lemma {:induction false} LeadCountPadded(w: string, u: string, sp: char -> bool)
    requires AllSatisfy(w, sp)
    requires u != [] ==> !sp(u[0])
    ensures LeadCount(w + u, sp) == |w|
    decreases |w|
  {
    if w != [] {
      assert (w + u)[1..] == w[1..] + u;
      LeadCountPadded(w[1..], u, sp);
    } else {
      assert w + u == u;
    }
  }

  /** The trailing run of `u + w` starts after `u` when `u` does not end it. */
  lemma {:induction false} TrailStartPadded(u: string, w: string, sp: char -> bool)
    requires AllSatisfy(w, sp)
    requires u != [] ==> !sp(u[|u| - 1])
    ensures TrailStart(u + w, sp) == |u|
    decreases |w|
  {
    if w != [] {
      assert (u + w)[..|u + w| - 1] == u + w[..|w| - 1];
      TrailStartPadded(u, w[..|w| - 1], sp);
    } else {
      assert u + w == u;
    }
  }

  /** Trimming twice trims nothing more. */
  lemma TrimIdempotent(s: string, sp: char -> bool)
    ensures Trim(Trim(s, sp), sp) == Trim(s, sp)
  {
    var t := Trim(s, sp);
    TrimPadded([], t, [], sp);
    assert [] + t + [] == t;
  }

  predicate StartsWith(s: string, p: string)
  {
    |p| <= |s| && s[..|p|] == p
  }

  predicate EndsWith(s: string, p: string)
  {
    |p| <= |s| && s[|s| - |p|..] == p
  }

  /** `t` occurs in `s` starting at position `k`. */
  predicate OccursAt(s: string, t: string, k: int)
  {
    0 <= k && k + |t| <= |s| && s[k..k + |t|] == t
  }

  /** String.prototype.includes: `t` occurs somewhere in `s`. */
  predicate Contains(s: string, t: string)
    decreases |s|
  {
    StartsWith(s, t) || (s != [] && Contains(s[1..], t))
  }

  /** A slice of `s` from position k >= 1 is the slice of its tail one position earlier. */
  lemma SliceOfTail(s: string, k: int, n: nat)
    requires 1 <= k && k + n <= |s|
    ensures s[k..k + n] == s[1..][k - 1..k - 1 + n]
  {
    var a := s[k..k + n];
    var b := s[1..][k - 1..k - 1 + n];
    assert |a| == n == |b|;
    forall j | 0 <= j < n
      ensures a[j] == b[j]
    {
      assert s[1..][k - 1 + j] == s[k + j];
    }
  }

  /** Position of the first occurrence of `t` in `s` (String.prototype.indexOf), -1 when absent. */
  function IndexOf(s: string, t: string): (r: int)
    ensures -1 <= r
    ensures r >= 0 <==> Contains(s, t)
    ensures r >= 0 ==> OccursAt(s, t, r)
    ensures forall k :: 0 <= k < r ==> !OccursAt(s, t, k)
    decreases |s|
  {
    if StartsWith(s, t) then
      assert s[0..|t|] == s[..|t|];
      0
    else if s == [] then -1
    else
      var i := IndexOf(s[1..], t);
      if i < 0 then -1
      else
        FirstOccurrenceInTail(s, t, i);
        i + 1
  }

  /** The first occurrence in the tail, shifted by one, is the first in `s`
      when `s` does not start with `t`. */
  lemma FirstOccurrenceInTail(s: string, t: string, i: nat)
    requires s != [] && !StartsWith(s, t)
    requires OccursAt(s[1..], t, i) && forall k :: 0 <= k < i ==> !OccursAt(s[1..], t, k)
    ensures OccursAt(s, t, i + 1) && forall k :: 0 <= k < i + 1 ==> !OccursAt(s, t, k)
  {
    SliceOfTail(s, i + 1, |t|);
    forall k | 0 <= k < i + 1
      ensures !OccursAt(s, t, k)
    {
      if k == 0 {
        if |t| <= |s| {
          assert s[0..|t|] == s[..|t|];
        }
      } else {
        assert !OccursAt(s[1..], t, k - 1);
        if k + |t| <= |s| {
          SliceOfTail(s, k, |t|);
        }
      }
    }
  }

  /** Contains holds exactly when there is a position where `t` occurs. */
  lemma {:induction false} ContainsOccurs(s: string, t: string)
    ensures Contains(s, t) <==> exists k :: OccursAt(s, t, k)
  {
    var r := IndexOf(s, t);
    if !Contains(s, t) {
      forall k | OccursAt(s, t, k) ensures false {
        assert OccursAt(s, t, k);
        NotContainsNowhere(s, t, k);
      }
    }
  }

  lemma {:induction false} NotContainsNowhere(s: string, t: string, k: int)
    requires !Contains(s, t)
    ensures !OccursAt(s, t, k)
    decreases |s|
  {
    if k > 0 && s != [] {
      NotContainsNowhere(s[1..], t, k - 1);
      if k + |t| <= |s| {
        SliceOfTail(s, k, |t|);
      }
    } else if k == 0 && |t| <= |s| {
      assert s[0..|t|] == s[..|t|];
    }
  }

  /** Lower-case mapping of one code point, as String.toLowerCase does it in
      JavaScript and in Java's root locale, for ASCII, Latin-1 and the two
      code points whose lower case is ASCII (KELVIN SIGN, and LATIN CAPITAL
      LETTER I WITH DOT ABOVE which becomes "i" plus a combining dot). */
  function LowerChar(c: char): string
  {
    if 'A' <= c <= 'Z' || ('\U{00C0}' <= c <= '\U{00DE}' && c != '\U{00D7}') then [(c as int + 32) as char]
    else if c == '\U{212A}' then "k"
    else if c == '\U{0130}' then "i\U{0307}"
    else [c]
  }

  function Lower(s: string): (r: string)
    ensures |r| >= |s|
  {
    if s == [] then [] else LowerChar(s[0]) + Lower(s[1..])
  }

  /** Upper-case mapping of one code point, as Java's String.toUpperCase does it
      in the root locale, for ASCII, Latin-1 and the code points whose upper
      case is ASCII (dotless i, long s, sharp s and the Latin ligatures). */
  function UpperChar(c: char): string
  {
    if 'a' <= c <= 'z' || ('\U{00E0}' <= c <= '\U{00FE}' && c != '\U{00F7}') then [(c as int - 32) as char]
    else if c == '\U{00FF}' then "\U{0178}"
    else if c == '\U{00B5}' then "\U{039C}"
    else if c == '\U{0131}' then "I"
    else if c == '\U{017F}' then "S"
    else if c == '\U{00DF}' then "SS"
    else if c == '\U{FB00}' then "FF"
    else if c == '\U{FB01}' then "FI"
    else if c == '\U{FB02}' then "FL"
    else if c == '\U{FB03}' then "FFI"
    else if c == '\U{FB04}' then "FFL"
    else if c == '\U{FB05}' || c == '\U{FB06}' then "ST"
    else [c]
  }

  function Upper(s: string): (r: string)
    ensures |r| >= |s|
  {
    if s == [] then [] else UpperChar(s[0]) + Upper(s[1..])
  }

  lemma {:induction false} LowerAppend(a: string, b: string)
    ensures Lower(a + b) == Lower(a) + Lower(b)
    decreases |a|
  {
    if a != [] {
      var ab := a + b;
      assert ab[0] == a[0] && ab[1..] == a[1..] + b;
      LowerAppend(a[1..], b);
      assert Lower(ab) == LowerChar(a[0]) + (Lower(a[1..]) + Lower(b));
      assert Lower(a) == LowerChar(a[0]) + Lower(a[1..]);
      assert LowerChar(a[0]) + (Lower(a[1..]) + Lower(b)) == (LowerChar(a[0]) + Lower(a[1..])) + Lower(b);
    } else {
      assert a + b == b;
    }
  }

  /** A string of ASCII lower-case letters is its own lower case. */
  lemma {:induction false} LowerOfLowerAscii(s: string)
    requires forall k :: 0 <= k < |s| ==> 'a' <= s[k] <= 'z'
    ensures Lower(s) == s
    decreases |s|
  {
    if s != [] {
      LowerOfLowerAscii(s[1..]);
      assert LowerChar(s[0]) == [s[0]];
      assert s == [s[0]] + s[1..];
    }
  }

  /** Upper-casing ASCII lower-case letters shifts each by 32. */
  lemma {:induction false} UpperOfLowerAscii(s: string)
    requires forall k :: 0 <= k < |s| ==> 'a' <= s[k] <= 'z'
    ensures |Upper(s)| == |s|
    ensures forall k :: 0 <= k < |s| ==> Upper(s)[k] == (s[k] as int - 32) as char
    decreases |s|
  {
    if s != [] {
      UpperOfLowerAscii(s[1..]);
      assert Upper(s) == [(s[0] as int - 32) as char] + Upper(s[1..]);
    }
  }

  /** Lower-casing twice changes nothing more. */
  lemma {:induction false} LowerIdempotent(s: string)
    ensures Lower(Lower(s)) == Lower(s)
    decreases |s|
  {
    if s != [] {
      LowerAppend(LowerChar(s[0]), Lower(s[1..]));
      LowerIdempotent(s[1..]);
      var c := s[0];
      if c == '\U{0130}' {
        assert Lower("i\U{0307}") == "i\U{0307}" by {
          assert "i\U{0307}"[1..] == "\U{0307}";
        }
      } else {
        assert Lower(LowerChar(c)) == LowerChar(c) by {
          assert |LowerChar(c)| == 1 && LowerChar(c)[1..] == [];
        }
      }
    }
  }

  /** Splits at the first occurrence of `sep`: the piece before and, when it occurs, the rest after it. */
  function Split(s: string, sep: char): (r: seq<string>)
    ensures |r| >= 1
    ensures forall k :: 0 <= k < |r| ==> sep !in r[k]
    decreases |s|
  {
    if s == [] then [[]]
    else
      var rest := Split(s[1..], sep);
      if s[0] == sep then [[]] + rest
      else [[s[0]] + rest[0]] + rest[1..]
  }

  /** Joining the pieces with the separator gives the string back. */
  function Join(parts: seq<string>, sep: char): string
    requires |parts| >= 1
  {
    if |parts| == 1 then parts[0] else parts[0] + [sep] + Join(parts[1..], sep)
  }

  lemma {:induction false} SplitJoin(s: string, sep: char)
    ensures Join(Split(s, sep), sep) == s
    decreases |s|
  {
    if s != [] {
      SplitJoin(s[1..], sep);
      var rest := Split(s[1..], sep);
      if s[0] != sep {
        if |rest| == 1 {
          assert s == [s[0]] + s[1..];
        } else {
          assert ([[s[0]] + rest[0]] + rest[1..])[1..] == rest[1..];
          assert s == [s[0]] + s[1..];
        }
      } else {
        assert ([[]] + rest)[1..] == rest;
        assert s == [s[0]] + s[1..];
      }
    }
  }
  /** The first piece is everything before the first separator. */
  lemma {:induction false} SplitFirstPiece(a: string, sep: char, b: string)
    requires sep !in a
    ensures Split(a + [sep] + b, sep)[0] == a
    decreases |a|
  {
    var s := a + [sep] + b;
    if a == [] {
      assert s[0] == sep && s[1..] == b;
    } else {
      assert s[0] == a[0];
      assert s[1..] == a[1..] + [sep] + b;
      SplitFirstPiece(a[1..], sep, b);
    }
  }

  /** Without a separator the text is its own only piece. */
  lemma {:induction false} SplitWithoutSeparator(a: string, sep: char)
    requires sep !in a
    ensures Split(a, sep) == [a]
    decreases |a|
  {
    if a != [] {
      assert a[0] != sep;
      SplitWithoutSeparator(a[1..], sep);
      assert [a[0]] + a[1..] == a;
    }
  }

  /** One separator between two pieces without one splits into those two pieces. */
  lemma {:induction false} SplitAround(a: string, sep: char, b: string)
    requires sep !in a && sep !in b
    ensures Split(a + [sep] + b, sep) == [a, b]
    decreases |a|
  {
    var s := a + [sep] + b;
    if a == [] {
      assert s[0] == sep && s[1..] == b;
      SplitWithoutSeparator(b, sep);
    } else {
      assert s[0] == a[0];
      assert s[1..] == a[1..] + [sep] + b;
      SplitAround(a[1..], sep, b);
      assert [a[0]] + a[1..] == a;
    }
  }

  /** `a < b` on strings: lexicographic by character, a proper prefix first. */
  predicate StrLess(a: string, b: string)
    decreases |a|
  {
    if a == [] then b != []
    else if b == [] then false
    else if a[0] != b[0] then a[0] < b[0]
    else StrLess(a[1..], b[1..])
  }

  lemma {:induction false} StrLessIrreflexive(a: string)
    ensures !StrLess(a, a)
    decreases |a|
  {
    if a != [] {
      StrLessIrreflexive(a[1..]);
    }
  }

  /** Exactly one of `a < b`, `a == b`, `b < a`. */
  lemma {:induction false} StrLessTrichotomy(a: string, b: string)
    ensures StrLess(a, b) || a == b || StrLess(b, a)
    ensures !(StrLess(a, b) && StrLess(b, a))
    decreases |a|
  {
    if a != [] && b != [] && a[0] == b[0] {
      StrLessTrichotomy(a[1..], b[1..]);
      if a[1..] == b[1..] {
        assert a == [a[0]] + a[1..] && b == [b[0]] + b[1..];
      }
    }
  }

  lemma {:induction false} StrLessTransitive(a: string, b: string, c: string)
    requires StrLess(a, b) && StrLess(b, c)
    ensures StrLess(a, c)
    decreases |a|
  {
    if a != [] && a[0] == b[0] && b[0] == c[0] {
      StrLessTransitive(a[1..], b[1..], c[1..]);
    }
  }
}
