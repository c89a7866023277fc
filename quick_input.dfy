/**
 * The grocery quick-add parser shared, character for character, by the web
 * grocery page and the mobile grocery screen: "Milk 2L @Publix" becomes the
 * name "Milk", the quantity "2L" and the store "Publix".
 *
 * The two regular expressions of the parser are modelled by their matching
 * semantics: the leftmost position where a match exists and, at that
 * position, the alternative the backtracking matcher tries first. Each
 * search is paired with a declarative description of what a match is, and
 * proved sound and complete against it.
 */
module QuickInput {
  import opened Wrappers
  import opened Text
  import opened JsNum

  /** A word character for \b when the regular expression has no u flag. */
  predicate IsWordChar(c: char)
  {
    ('a' <= c <= 'z') || ('A' <= c <= 'Z') || IsDigit(c) || c == '_'
  }

  /** \b at position i: a word character on exactly one side. */
  predicate Boundary(s: string, i: nat)
    requires i <= |s|
  {
    (i > 0 && IsWordChar(s[i - 1])) != (i < |s| && IsWordChar(s[i]))
  }

  predicate NoLineTerminator(s: string)
  {
    forall k :: 0 <= k < |s| ==> !IsLineTerminator(s[k])
  }

  // ---------------------------------------------------------------------
  // The store: /@\s*(.+)$/
  // ---------------------------------------------------------------------

  /** Every character in [i, j) is white space. */
  predicate SpacesIn(s: string, i: nat, j: nat)
    requires i <= j <= |s|
  {
    forall k :: i <= k < j ==> IsJsSpace(s[k])
  }

  /** Every character in [i, j) is an ASCII digit. */
  predicate DigitsIn(s: string, i: nat, j: nat)
    requires i <= j <= |s|
  {
    forall k :: i <= k < j ==> IsDigit(s[k])
  }

  /** No character in [i, j) is a line terminator (`.` matches them all). */
  predicate NoTerminatorIn(s: string, i: nat, j: nat)
    requires i <= j <= |s|
  {
    forall k :: i <= k < j ==> !IsLineTerminator(s[k])
  }

  /** Where the run of white space starting at i ends. */
  function SpaceRunEnd(s: string, i: nat): (j: nat)
    requires i <= |s|
    ensures i <= j <= |s| && SpacesIn(s, i, j) && (j < |s| ==> !IsJsSpace(s[j]))
    decreases |s| - i
  {
    if i < |s| && IsJsSpace(s[i]) then SpaceRunEnd(s, i + 1) else i
  }

  /** Where the run of digits starting at i ends. */
  function DigitRunEnd(s: string, i: nat): (j: nat)
    requires i <= |s|
    ensures i <= j <= |s| && DigitsIn(s, i, j) && (j < |s| ==> !IsDigit(s[j]))
    decreases |s| - i
  {
    if i < |s| && IsDigit(s[i]) then DigitRunEnd(s, i + 1) else i
  }

  /** Where the capture of `\s*(.+)$` starts when an '@' stands at p. The
      greedy \s* takes the whole run of white space, and gives back its last
      character only when nothing else is left for `.+`. */
  function CaptureStart(s: string, p: nat): (c: Option<nat>)
    requires p < |s|
    ensures c.Some? ==> p < c.value < |s| && SpacesIn(s, p + 1, c.value) && NoTerminatorIn(s, c.value, |s|)
    ensures c.Some? ==> c.value == |s| - 1 || !IsJsSpace(s[c.value])
  {
    var k := SpaceRunEnd(s, p + 1);
    if k < |s| then
      if NoTerminatorIn(s, k, |s|) then Some(k) else None
    else if k > p + 1 && !IsLineTerminator(s[k - 1]) then Some(k - 1)
    else None
  }

  /** The capture exists whenever the text after the '@' splits into white
      space and a non-empty tail without line terminators. */
  lemma CaptureStartComplete(s: string, p: nat, c: nat)
    requires p < c < |s| && SpacesIn(s, p + 1, c) && NoTerminatorIn(s, c, |s|)
    ensures CaptureStart(s, p).Some?
  {
  }

  /** A match of the store pattern: the '@' at `at`; the capture `(.+)` is
      the text from `start` to the end. */
  datatype AtMatch = AtMatch(at: nat, start: nat)

  /** The leftmost position at or after i where the store pattern matches. */
  function FirstAt(s: string, i: nat): (r: Option<AtMatch>)
    requires i <= |s|
    ensures r.Some? ==> i <= r.value.at < |s| && s[r.value.at] == '@'
                        && CaptureStart(s, r.value.at) == Some(r.value.start)
    ensures r.Some? ==> forall q :: i <= q < r.value.at && s[q] == '@' ==> CaptureStart(s, q).None?
    ensures r.None? ==> forall q :: i <= q < |s| && s[q] == '@' ==> CaptureStart(s, q).None?
    decreases |s| - i
  {
    if i == |s| then None
    else if s[i] == '@' && CaptureStart(s, i).Some? then Some(AtMatch(i, CaptureStart(s, i).value))
    else FirstAt(s, i + 1)
  }

  /** Text without any '@' has no store. */
  lemma NoAtNoMatch(s: string)
    requires '@' !in s
    ensures FirstAt(s, 0).None?
  {
  }

  // ---------------------------------------------------------------------
  // The quantity: /\b(\d+(\.\d+)?\s*(kg|g|l|ml|lb|oz|pack|pcs|L)?)\b/i
  // ---------------------------------------------------------------------

  /** The i flag folds ASCII letters only (no u flag, ASCII pattern letters). */
  function FoldAscii(c: char): char
  {
    if 'A' <= c <= 'Z' then (c as int + 32) as char else c
  }

  /** The character k places after u is the letter `c`, ignoring ASCII case. */
  predicate LetterAt(s: string, u: nat, k: nat, c: char)
  {
    u + k < |s| && FoldAscii(s[u + k]) == c
  }

  /** The text from u to e spells one of the units kg, g, l, ml, lb, oz,
      pack, pcs (the pattern's last alternative, L, is l again). */
  predicate IsUnitAt(s: string, u: nat, e: nat)
  {
    || (e == u + 1 && (LetterAt(s, u, 0, 'g') || LetterAt(s, u, 0, 'l')))
    || (e == u + 2 && LetterAt(s, u, 0, 'k') && LetterAt(s, u, 1, 'g'))
    || (e == u + 2 && LetterAt(s, u, 0, 'm') && LetterAt(s, u, 1, 'l'))
    || (e == u + 2 && LetterAt(s, u, 0, 'l') && LetterAt(s, u, 1, 'b'))
    || (e == u + 2 && LetterAt(s, u, 0, 'o') && LetterAt(s, u, 1, 'z'))
    || (e == u + 3 && LetterAt(s, u, 0, 'p') && LetterAt(s, u, 1, 'c') && LetterAt(s, u, 2, 's'))
    || (e == u + 4 && LetterAt(s, u, 0, 'p') && LetterAt(s, u, 1, 'a') && LetterAt(s, u, 2, 'c')
        && LetterAt(s, u, 3, 'k'))
  }

  /** From u, an optional unit ends at e, followed by \b. */
  predicate UnitEnds(s: string, u: nat, e: nat)
    requires u <= e <= |s|
  {
    Boundary(s, e) && (e == u || IsUnitAt(s, u, e))
  }

  /** `(kg|g|l|ml|lb|oz|pack|pcs|L)?\b` at u: the alternatives in the
      pattern's order, each taken only when \b follows it, then the empty one. */
  function TryUnits(s: string, u: nat): (e: Option<nat>)
    requires u <= |s|
    ensures e.Some? ==> u <= e.value <= |s| && UnitEnds(s, u, e.value)
  {
    if LetterAt(s, u, 0, 'k') && LetterAt(s, u, 1, 'g') && Boundary(s, u + 2) then Some(u + 2)
    else if LetterAt(s, u, 0, 'g') && Boundary(s, u + 1) then Some(u + 1)
    else if LetterAt(s, u, 0, 'l') && Boundary(s, u + 1) then Some(u + 1)
    else if LetterAt(s, u, 0, 'm') && LetterAt(s, u, 1, 'l') && Boundary(s, u + 2) then Some(u + 2)
    else if LetterAt(s, u, 0, 'l') && LetterAt(s, u, 1, 'b') && Boundary(s, u + 2) then Some(u + 2)
    else if LetterAt(s, u, 0, 'o') && LetterAt(s, u, 1, 'z') && Boundary(s, u + 2) then Some(u + 2)
    else if LetterAt(s, u, 0, 'p') && LetterAt(s, u, 1, 'a') && LetterAt(s, u, 2, 'c') && LetterAt(s, u, 3, 'k')
            && Boundary(s, u + 4) then Some(u + 4)
    else if LetterAt(s, u, 0, 'p') && LetterAt(s, u, 1, 'c') && LetterAt(s, u, 2, 's') && Boundary(s, u + 3) then Some(u + 3)
    else if Boundary(s, u) then Some(u)
    else None
  }

  /** Whenever some unit (or none) ends at e with \b, the alternatives find one. */
  lemma TryUnitsComplete(s: string, u: nat, e: nat)
    requires u <= e <= |s| && UnitEnds(s, u, e)
    ensures TryUnits(s, u).Some?
  {
  }

  /** Where the white space of a quantity ends (c) and where the optional
      unit and the closing \b put its end (e). */
  datatype Tail = Tail(c: nat, e: nat)

  /** `\s*` ending at c, then one character earlier on backtracking, down to b. */
  function TrySpaces(s: string, b: nat, c: nat): (m: Option<Tail>)
    requires b <= c <= |s|
    ensures m.Some? ==> b <= m.value.c <= c && m.value.c <= m.value.e <= |s| && UnitEnds(s, m.value.c, m.value.e)
    decreases c - b
  {
    var t := TryUnits(s, c);
    if t.Some? then Some(Tail(c, t.value))
    else if c == b then None
    else TrySpaces(s, b, c - 1)
  }

  /** Backtracking reaches every shorter run of white space. */
  lemma {:induction false} TrySpacesComplete(s: string, b: nat, c: nat, c': nat)
    requires b <= c' <= c <= |s| && TryUnits(s, c').Some?
    ensures TrySpaces(s, b, c).Some?
    decreases c - b
  {
    if c != c' && TryUnits(s, c).None? {
      TrySpacesComplete(s, b, c - 1, c');
    }
  }

  /** `\s*(unit)?\b` from position b. */
  function TailAt(s: string, b: nat): (m: Option<Tail>)
    requires b <= |s|
    ensures m.Some? ==> b <= m.value.c <= m.value.e <= |s| && SpacesIn(s, b, m.value.c)
                        && UnitEnds(s, m.value.c, m.value.e)
  {
    TrySpaces(s, b, SpaceRunEnd(s, b))
  }

  lemma TailAtComplete(s: string, b: nat, c: nat, e: nat)
    requires b <= c <= e <= |s| && SpacesIn(s, b, c) && UnitEnds(s, c, e)
    ensures TailAt(s, b).Some?
  {
    TryUnitsComplete(s, c, e);
    TrySpacesComplete(s, b, SpaceRunEnd(s, b), c);
  }

  /** Positions of a quantity match: the integer digits end at a, the
      fraction at b (b == a when there is none), the white space at c, and
      the optional unit at e. */
  datatype Span = Span(a: nat, b: nat, c: nat, e: nat)

  /** What a match of the quantity pattern starting at p is. */
  predicate QtyShape(s: string, p: nat, m: Span)
  {
    && p < m.a <= m.b <= m.c <= m.e <= |s|
    && Boundary(s, p) && DigitsIn(s, p, m.a)
    && (m.b > m.a ==> s[m.a] == '.' && m.a + 1 < m.b && DigitsIn(s, m.a + 1, m.b))
    && SpacesIn(s, m.b, m.c)
    && UnitEnds(s, m.c, m.e)
  }

  /** The digits of `\d+` and of the fraction are taken in full: giving one
      back would leave a digit right after the shorter run, where \b cannot
      hold, so the matcher's backtracking into them never succeeds (QtyAtComplete
      proves that nothing is lost). The fraction is tried first; without it,
      the match ends after the integer digits. */
  function TryNumber(s: string, p: nat): (m: Option<Span>)
    requires p < |s| && Boundary(s, p)
    ensures m.Some? ==> QtyShape(s, p, m.value)
  {
    var n := DigitRunEnd(s, p);
    var f := if n < |s| && s[n] == '.' then DigitRunEnd(s, n + 1) else n;
    var frac := if f > n + 1 then TailAt(s, f) else None;
    if n == p then None
    else if frac.Some? then Some(Span(n, f, frac.value.c, frac.value.e))
    else
      var t := TailAt(s, n);
      if t.Some? then Some(Span(n, n, t.value.c, t.value.e)) else None
  }

  /** The match of the quantity pattern at p, if any. */
  function QtyAt(s: string, p: nat): (m: Option<Span>)
    requires p <= |s|
    ensures m.Some? ==> QtyShape(s, p, m.value)
  {
    if p < |s| && IsDigit(s[p]) && Boundary(s, p) then TryNumber(s, p) else None
  }

  /** A run of digits that stops before a non-digit is the whole run. */
  lemma {:induction false} DigitRunStops(s: string, i: nat, j: nat)
    requires i <= j <= |s| && DigitsIn(s, i, j) && (j < |s| ==> !IsDigit(s[j]))
    ensures DigitRunEnd(s, i) == j
    decreases j - i
  {
    if i < j {
      DigitRunStops(s, i + 1, j);
    }
  }

  /** What follows the digits of a run in a match (white space, a unit
      letter, '.' or \b after a digit) is never a digit. */
  lemma NoDigitAfterRun(s: string, d: nat, m: Span)
    requires 0 < d <= m.c <= m.e <= |s| && IsDigit(s[d - 1])
    requires SpacesIn(s, d, m.c) && UnitEnds(s, m.c, m.e)
    ensures d < |s| ==> !IsDigit(s[d])
  {
    if d < m.c {
      assert IsJsSpace(s[d]);
    } else if m.c < m.e {
      assert LetterAt(s, d, 0, FoldAscii(s[d]));
    }
  }

  /** Any match takes all the digits of its runs. */
  lemma ShapeTakesAllDigits(s: string, p: nat, m: Span)
    requires QtyShape(s, p, m)
    ensures m.a == DigitRunEnd(s, p)
    ensures m.b > m.a ==> m.b == DigitRunEnd(s, m.a + 1)
  {
    assert IsDigit(s[m.a - 1]);
    if m.b > m.a {
      assert IsDigit(s[m.b - 1]);
      NoDigitAfterRun(s, m.b, m);
      DigitRunStops(s, m.a + 1, m.b);
    } else {
      NoDigitAfterRun(s, m.a, m);
    }
    DigitRunStops(s, p, m.a);
  }

  /** With the tail after the integer digits matching, so does the number. */
  lemma TryNumberFindsInteger(s: string, p: nat)
    requires p < |s| && Boundary(s, p) && DigitRunEnd(s, p) > p && TailAt(s, DigitRunEnd(s, p)).Some?
    ensures TryNumber(s, p).Some?
  {
  }

  /** With the tail after the fraction digits matching, so does the number. */
  lemma TryNumberFindsFraction(s: string, p: nat)
    requires p < |s| && Boundary(s, p) && DigitRunEnd(s, p) > p
    requires var n := DigitRunEnd(s, p);
             n < |s| && s[n] == '.' && DigitRunEnd(s, n + 1) > n + 1 && TailAt(s, DigitRunEnd(s, n + 1)).Some?
    ensures TryNumber(s, p).Some?
  {
  }

  /** The matcher finds a match at p whenever there is one. */
  lemma QtyAtComplete(s: string, p: nat, m: Span)
    requires p <= |s| && QtyShape(s, p, m)
    ensures QtyAt(s, p).Some?
  {
    ShapeTakesAllDigits(s, p, m);
    assert p < |s| && IsDigit(s[p]) && Boundary(s, p);
    TailAtComplete(s, m.b, m.c, m.e);
    var tail := TailAt(s, m.b);
    if m.b > m.a {
      assert DigitRunEnd(s, m.a + 1) == m.b && TailAt(s, DigitRunEnd(s, m.a + 1)) == tail;
      TryNumberFindsFraction(s, p);
    } else {
      assert DigitRunEnd(s, p) == m.b && TailAt(s, DigitRunEnd(s, p)) == tail;
      TryNumberFindsInteger(s, p);
    }
    assert QtyAt(s, p) == TryNumber(s, p);
  }

  /** A quantity match: where it starts, and its parts. */
  datatype QtyMatch = QtyMatch(start: nat, span: Span)

  /** The first match at or after position i. */
  function FirstQty(s: string, i: nat): (r: Option<QtyMatch>)
    requires i <= |s|
    ensures r.Some? ==> i <= r.value.start && QtyShape(s, r.value.start, r.value.span)
    decreases |s| - i
  {
    var m := QtyAt(s, i);
    if m.Some? then Some(QtyMatch(i, m.value))
    else if i == |s| then None
    else FirstQty(s, i + 1)
  }

  /** It is the leftmost: the matcher finds nothing at a position before
      it, nor anywhere when there is no match. */
  lemma {:induction false} FirstQtySkips(s: string, i: nat, q: nat)
    requires i <= q <= |s|
    requires FirstQty(s, i).Some? ==> q < FirstQty(s, i).value.start
    ensures QtyAt(s, q).None?
    decreases q - i
  {
    if q > i {
      assert QtyAt(s, i).None?;
      FirstQtySkips(s, i + 1, q);
    }
  }

  /** The quantity match is the leftmost one: no match starts earlier. */
  lemma QtyIsLeftmost(s: string, q: nat, m: Span)
    requires FirstQty(s, 0).Some? && q < FirstQty(s, 0).value.start
    ensures !QtyShape(s, q, m)
  {
    if QtyShape(s, q, m) {
      FirstQtySkips(s, 0, q);
      QtyAtComplete(s, q, m);
    }
  }

  /** Text with no quantity match has none anywhere. */
  lemma NoQtyAnywhere(s: string, q: nat, m: Span)
    requires FirstQty(s, 0).None? && q <= |s|
    ensures !QtyShape(s, q, m)
  {
    if QtyShape(s, q, m) {
      FirstQtySkips(s, 0, q);
      QtyAtComplete(s, q, m);
    }
  }

  // ---------------------------------------------------------------------
  // The rewrites
  // ---------------------------------------------------------------------

  /** String.prototype.replace with a string pattern and an empty
      replacement: only the first occurrence of t is removed. */
  function RemoveFirst(s: string, t: string): (r: string)
    ensures Contains(s, t) ==> |r| == |s| - |t|
    ensures !Contains(s, t) ==> r == s
  {
    var i := IndexOf(s, t);
    if i >= 0 then s[..i] + s[i + |t|..] else s
  }

  /** `replace(/\s+/g, ' ')`: every run of white space becomes one space. */
  function CollapseSpaces(s: string): (r: string)
    ensures |r| <= |s|
    ensures r == [] <==> s == []
    decreases |s|
  {
    if s == [] then []
    else if IsJsSpace(s[0]) then [' '] + CollapseSpaces(s[SpaceRunEnd(s, 0)..])
    else [s[0]] + CollapseSpaces(s[1..])
  }

  /** The first character of the result: a space for a run, else unchanged. */
  lemma CollapseHead(s: string)
    requires s != []
    ensures CollapseSpaces(s)[0] == if IsJsSpace(s[0]) then ' ' else s[0]
  {
  }

  /** The only white space left is single spaces. */
  lemma {:induction false} CollapseLeavesSingleSpaces(s: string)
    ensures var r := CollapseSpaces(s);
            forall k :: 0 <= k < |r| && IsJsSpace(r[k]) ==> r[k] == ' ' && (k + 1 < |r| ==> !IsJsSpace(r[k + 1]))
    decreases |s|
  {
    if s != [] {
      var r := CollapseSpaces(s);
      if IsJsSpace(s[0]) {
        var n := SpaceRunEnd(s, 0);
        var t := s[n..];
        CollapseLeavesSingleSpaces(t);
        if t != [] {
          CollapseHead(t);
        }
        assert r == [' '] + CollapseSpaces(t);
      } else {
        CollapseLeavesSingleSpaces(s[1..]);
        assert r == [s[0]] + CollapseSpaces(s[1..]);
      }
    }
  }

  /** The characters of s that are not white space, in order. */
  function NonSpace(s: string): (r: string)
    ensures |r| <= |s|
  {
    if s == [] then [] else (if IsJsSpace(s[0]) then [] else [s[0]]) + NonSpace(s[1..])
  }

  lemma {:induction false} SpaceRunDropped(s: string, n: nat)
    requires n <= |s| && forall k :: 0 <= k < n ==> IsJsSpace(s[k])
    ensures NonSpace(s) == NonSpace(s[n..])
    decreases n
  {
    if n > 0 {
      assert s[1..][n - 1..] == s[n..];
      SpaceRunDropped(s[1..], n - 1);
    }
  }

  /** Collapsing changes only white space: the other characters stay, in order. */
  lemma {:induction false} CollapseKeepsText(s: string)
    ensures NonSpace(CollapseSpaces(s)) == NonSpace(s)
    decreases |s|
  {
    if s != [] {
      if IsJsSpace(s[0]) {
        var n := SpaceRunEnd(s, 0);
        SpaceRunDropped(s, n);
        CollapseKeepsText(s[n..]);
        var r := [' '] + CollapseSpaces(s[n..]);
        assert r[1..] == CollapseSpaces(s[n..]);
      } else {
        CollapseKeepsText(s[1..]);
        var r := [s[0]] + CollapseSpaces(s[1..]);
        assert r[1..] == CollapseSpaces(s[1..]);
      }
    }
  }

  /** What the parser returns for a non-blank input. */
  datatype Parsed = Parsed(name: string, quantity: string, store: string)

  /** The text before the store, and the store. */
  function SplitStore(trimmed: string): (r: (string, string))
  {
    match FirstAt(trimmed, 0)
    case Some(m) => (JsTrim(trimmed[..m.at]), JsTrim(trimmed[m.start..]))
    case None => (trimmed, "")
  }

  /** The text with the quantity removed, and the quantity. */
  function SplitQuantity(remaining: string): (r: (string, string))
  {
    match FirstQty(remaining, 0)
    case Some(m) =>
      var matched := remaining[m.start..m.span.e];
      (JsTrim(RemoveFirst(remaining, matched)), JsTrim(matched))
    case None => (remaining, "")
  }

  /** parseQuickInput: None for blank input. */
  function ParseQuickInput(input: string): (r: Option<Parsed>)
    ensures r.None? <==> JsTrim(input) == []
    ensures r.Some? ==> r.value.store == SplitStore(JsTrim(input)).1
    ensures r.Some? ==> var rest := SplitStore(JsTrim(input)).0;
                        r.value.quantity == SplitQuantity(rest).1
                        && r.value.name == JsTrim(CollapseSpaces(SplitQuantity(rest).0))
  {
    var trimmed := JsTrim(input);
    if trimmed == [] then None
    else
      var (remaining, store) := SplitStore(trimmed);
      var (rest, quantity) := SplitQuantity(remaining);
      Some(Parsed(JsTrim(CollapseSpaces(rest)), quantity, store))
  }

  // ---------------------------------------------------------------------
  // What the parser guarantees
  // ---------------------------------------------------------------------

  /** Trimming text that starts with a non-space keeps that first character. */
  lemma TrimKeepsFirst(s: string)
    requires s != [] && !IsJsSpace(s[0])
    ensures JsTrim(s) != [] && JsTrim(s)[0] == s[0]
  {
    TrimIsSlice(s, IsJsSpace);
    TrimCutsOnlyTrailing(s, IsJsSpace);
  }

  /** Trimming text keeps a property every one of its characters has. */
  lemma TrimKeepsNoTerminator(s: string)
    requires NoTerminatorIn(s, 0, |s|)
    ensures var r := JsTrim(s); NoTerminatorIn(r, 0, |r|)
  {
    TrimIsSlice(s, IsJsSpace);
    var i := LeadCount(s, IsJsSpace);
    var r := JsTrim(s);
    forall k | 0 <= k < |r|
      ensures !IsLineTerminator(r[k])
    {
      assert r[k] == s[i + k];
    }
  }

  /** A store is reported exactly when the text has an '@' with something
      after it, and then it is one line of text without surrounding space. */
  lemma StoreFound(input: string)
    requires JsTrim(input) != []
    ensures var t := JsTrim(input);
            var store := ParseQuickInput(input).value.store;
            && (store != [] <==> FirstAt(t, 0).Some?)
            && NoTerminatorIn(store, 0, |store|)
  {
    var t := JsTrim(input);
    assert !IsJsSpace(t[|t| - 1]);
    StoreOfTrimmed(t);
  }

  /** The same for text that already ends in a non-space character. */
  lemma StoreOfTrimmed(t: string)
    requires t != [] && !IsJsSpace(t[|t| - 1])
    ensures var store := SplitStore(t).1;
            && (store != [] <==> FirstAt(t, 0).Some?)
            && NoTerminatorIn(store, 0, |store|)
  {
    match FirstAt(t, 0)
    case Some(m) =>
      var tail := t[m.start..];
      assert tail[0] == t[m.start];
      TrimKeepsFirst(tail);
      assert NoTerminatorIn(tail, 0, |tail|) by {
        forall k | 0 <= k < |tail|
          ensures !IsLineTerminator(tail[k])
        {
          assert tail[k] == t[m.start + k];
        }
      }
      TrimKeepsNoTerminator(tail);
    case None =>
  }

  /** The quantity, when there is one, starts with a digit. */
  lemma QuantityStartsWithDigit(input: string)
    requires JsTrim(input) != []
    ensures var rest := SplitStore(JsTrim(input)).0;
            var q := ParseQuickInput(input).value.quantity;
            && (q != [] <==> FirstQty(rest, 0).Some?)
            && (q != [] ==> IsDigit(q[0]))
  {
    var rest := SplitStore(JsTrim(input)).0;
    match FirstQty(rest, 0)
    case Some(m) =>
      var matched := rest[m.start..m.span.e];
      assert matched[0] == rest[m.start];
      assert IsDigit(rest[m.start]);
      TrimKeepsFirst(matched);
    case None =>
  }

  /** No white space at either end, and white space only as single ' '
      characters between words. */
  predicate SingleSpaced(t: string)
  {
    && (t != [] ==> !IsJsSpace(t[0]) && !IsJsSpace(t[|t| - 1]))
    && forall k :: 0 <= k < |t| && IsJsSpace(t[k]) ==> t[k] == ' ' && k + 1 < |t| && !IsJsSpace(t[k + 1])
  }

  /** Collapsing white space and then trimming gives single-spaced text. */
  lemma CollapsedTrimIsSingleSpaced(x: string)
    ensures SingleSpaced(JsTrim(CollapseSpaces(x)))
  {
    var c := CollapseSpaces(x);
    var name := JsTrim(c);
    CollapseLeavesSingleSpaces(x);
    TrimIsSlice(c, IsJsSpace);
    var i := LeadCount(c, IsJsSpace);
    forall k | 0 <= k < |name| && IsJsSpace(name[k])
      ensures name[k] == ' ' && k + 1 < |name| && !IsJsSpace(name[k + 1])
    {
      assert name[k] == c[i + k];
      assert k < |name| - 1;
      assert name[k + 1] == c[i + k + 1];
    }
  }

  /** The name is single-spaced. */
  lemma NameIsClean(input: string)
    requires JsTrim(input) != []
    ensures SingleSpaced(ParseQuickInput(input).value.name)
  {
    CollapsedTrimIsSingleSpaced(SplitQuantity(SplitStore(JsTrim(input)).0).0);
  }

  // ---------------------------------------------------------------------
  // The worked example
  // ---------------------------------------------------------------------

  /** A text with no white space at its ends trims to itself. */
  lemma TrimsToItself(t: string)
    requires t != [] && !IsJsSpace(t[0]) && !IsJsSpace(t[|t| - 1])
    ensures JsTrim(t) == t
  {
    TrimPadded([], t, [], IsJsSpace);
    assert [] + t + [] == t;
  }

  /** The search passes over text without an '@'. */
  lemma {:induction false} FirstAtPassesOver(s: string, i: nat, j: nat)
    requires i <= j <= |s| && forall k :: i <= k < j ==> s[k] != '@'
    ensures FirstAt(s, i) == FirstAt(s, j)
    decreases j - i
  {
    if i < j {
      FirstAtPassesOver(s, i + 1, j);
    }
  }

  /** In "Milk 2L @Publix" the store pattern matches at the '@' at 8, its capture from 9. */
  lemma ExampleAt()
    ensures FirstAt("Milk 2L @Publix", 0) == Some(AtMatch(8, 9))
  {
    var s := "Milk 2L @Publix";
    assert SpaceRunEnd(s, 9) == 9;
    assert NoTerminatorIn(s, 9, |s|);
    assert CaptureStart(s, 8) == Some(9);
    FirstAtPassesOver(s, 0, 8);
  }

  /** One trailing space is trimmed away. */
  lemma TrimsTrailingSpace(t: string)
    requires t != [] && !IsJsSpace(t[0]) && !IsJsSpace(t[|t| - 1])
    ensures JsTrim(t + " ") == t
  {
    TrimPadded([], t, " ", IsJsSpace);
    assert [] + t + " " == t + " ";
  }

  /** The pieces of "Milk 2L @Publix" around the '@'. */
  lemma ExampleSlices()
    ensures "Milk 2L @Publix"[..8] == "Milk 2L" + " "
    ensures "Milk 2L @Publix"[9..] == "Publix"
  {
  }

  /** SplitStore once the match is known. */
  lemma SplitStoreAt(t: string, m: AtMatch)
    requires FirstAt(t, 0) == Some(m)
    ensures m.at < m.start < |t|
    ensures SplitStore(t) == (JsTrim(t[..m.at]), JsTrim(t[m.start..]))
  {
  }

  /** SplitStore once the match and the text on each side are known. */
  lemma SplitStoreOf(t: string, m: AtMatch, head: string, store: string)
    requires FirstAt(t, 0) == Some(m)
    requires m.at < m.start < |t|
    requires JsTrim(t[..m.at]) == head && JsTrim(t[m.start..]) == store
    ensures SplitStore(t) == (head, store)
  {
    SplitStoreAt(t, m);
  }

  /** The store of "Milk 2L @Publix" is "Publix", and "Milk 2L" is left. */
  lemma ExampleStore()
    ensures SplitStore("Milk 2L @Publix") == ("Milk 2L", "Publix")
  {
    ExampleAt();
    ExampleSides();
    SplitStoreOf("Milk 2L @Publix", AtMatch(8, 9), "Milk 2L", "Publix");
  }

  /** Trimmed, the text before the '@' is "Milk 2L" and after it "Publix". */
  lemma ExampleSides()
    ensures JsTrim("Milk 2L @Publix"[..8]) == "Milk 2L"
    ensures JsTrim("Milk 2L @Publix"[9..]) == "Publix"
  {
    ExampleSlices();
    TrimsTrailingSpace("Milk 2L");
    TrimsToItself("Publix");
  }

  /** The quantity of "Milk 2L": the digit at 5, the unit L ending at 7. */
  lemma ExampleQuantityMatch()
    ensures FirstQty("Milk 2L", 0) == Some(QtyMatch(5, Span(6, 6, 6, 7)))
  {
    var r := "Milk 2L";
    assert DigitRunEnd(r, 6) == 6;
    assert DigitRunEnd(r, 5) == 6;
    assert SpaceRunEnd(r, 6) == 6;
    assert TryUnits(r, 6) == Some(7);
    assert TailAt(r, 6) == Some(Tail(6, 7));
    assert QtyAt(r, 5) == Some(Span(6, 6, 6, 7));
    assert FirstQty(r, 5) == Some(QtyMatch(5, Span(6, 6, 6, 7)));
    assert FirstQty(r, 4) == FirstQty(r, 5);
    assert FirstQty(r, 3) == FirstQty(r, 4);
    assert FirstQty(r, 2) == FirstQty(r, 3);
    assert FirstQty(r, 1) == FirstQty(r, 2);
    assert FirstQty(r, 0) == FirstQty(r, 1);
  }

  /** Removing the matched "2L" from "Milk 2L" leaves "Milk ". */
  lemma ExampleRemoval()
    ensures RemoveFirst("Milk 2L", "2L") == "Milk" + " "
  {
    var r := "Milk 2L";
    assert OccursAt(r, "2L", 5);
    forall k | 0 <= k < 5 ensures !OccursAt(r, "2L", k) {
      assert r[k] != '2';
    }
    assert IndexOf(r, "2L") == 5;
    assert r[..5] + r[7..] == "Milk" + " ";
  }

  /** Removing the matched "2L" from "Milk 2L" and trimming leaves "Milk". */
  lemma ExampleRemainder()
    ensures JsTrim(RemoveFirst("Milk 2L", "2L")) == "Milk"
  {
    ExampleRemoval();
    TrimsTrailingSpace("Milk");
  }

  /** SplitQuantity once the match is known. */
  lemma SplitQuantityAt(r: string, m: QtyMatch)
    requires FirstQty(r, 0) == Some(m)
    ensures m.start <= m.span.e <= |r|
    ensures SplitQuantity(r) == (JsTrim(RemoveFirst(r, r[m.start..m.span.e])), JsTrim(r[m.start..m.span.e]))
  {
  }

  /** SplitQuantity once the match, the matched text and the name text
      are known. */
  lemma SplitQuantityOf(r: string, m: QtyMatch, name: string, q: string)
    requires FirstQty(r, 0) == Some(m)
    requires m.start <= m.span.e <= |r| && r[m.start..m.span.e] == q
    requires JsTrim(RemoveFirst(r, q)) == name && JsTrim(q) == q
    ensures SplitQuantity(r) == (name, q)
  {
    SplitQuantityAt(r, m);
  }

  lemma ExampleMatched()
    ensures "Milk 2L"[5..7] == "2L"
  {
  }

  /** "Milk 2L" splits into the name text "Milk" and the quantity "2L". */
  lemma ExampleQuantity()
    ensures SplitQuantity("Milk 2L") == ("Milk", "2L")
  {
    ExampleQuantityMatch();
    ExampleMatched();
    ExampleRemainder();
    TrimsToItself("2L");
    SplitQuantityOf("Milk 2L", QtyMatch(5, Span(6, 6, 6, 7)), "Milk", "2L");
  }

  /** "Milk" has no white space to collapse or trim. */
  lemma ExampleName()
    ensures JsTrim(CollapseSpaces("Milk")) == "Milk"
  {
    assert CollapseSpaces("Milk") == "Milk";
    TrimsToItself("Milk");
  }

  /** parseQuickInput("Milk 2L @Publix") gives the name "Milk", the
      quantity "2L" and the store "Publix". */
  lemma ParseQuickInputExample()
    ensures ParseQuickInput("Milk 2L @Publix") == Some(Parsed("Milk", "2L", "Publix"))
  {
    TrimsToItself("Milk 2L @Publix");
    ExampleStore();
    ExampleQuantity();
    ExampleName();
    var r := ParseQuickInput("Milk 2L @Publix");
    assert r.Some?;
    assert r.value.store == "Publix";
    assert r.value.quantity == "2L";
    assert r.value.name == "Milk";
  }
}
