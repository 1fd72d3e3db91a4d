/**
 * The handful of Python `str` operations the catalog pipeline relies on,
 * over ASCII text: `lower`, `strip`, `split(sep)`, `split()`, `sep.join`,
 * `in`, `startswith`, `replace(old, "")` and `isdigit`.
 */
module TextUtil {
  import opened Wrappers

  /** Python's ASCII whitespace: \t \n \v \f \r, the separators \x1c-\x1f, and space. */
  predicate IsSpace(c: char) {
    9 <= c as int <= 13 || 28 <= c as int <= 32
  }

  predicate AllSpace(s: string) {
    forall i :: 0 <= i < |s| ==> IsSpace(s[i])
  }

  predicate NoSpace(s: string) {
    forall i :: 0 <= i < |s| ==> !IsSpace(s[i])
  }

  function LowerChar(c: char): char {
    if 'A' <= c <= 'Z' then (c as int + 32) as char else c
  }

  /** `str.lower()` on ASCII text. */
  function Lower(s: string): (r: string)
    ensures |r| == |s|
    ensures forall i :: 0 <= i < |s| ==> r[i] == LowerChar(s[i])
  {
    seq(|s|, i requires 0 <= i < |s| => LowerChar(s[i]))
  }

  // ---------------------------------------------------------------------
  // strip
  // ---------------------------------------------------------------------

  function TrimLeft(s: string): (r: string)
    ensures |r| <= |s| && r == s[|s| - |r|..]
    ensures r != [] ==> !IsSpace(r[0])
    decreases |s|
  {
    if |s| > 0 && IsSpace(s[0]) then TrimLeft(s[1..]) else s
  }

  function TrimRight(s: string): (r: string)
    ensures |r| <= |s| && r == s[..|r|]
    ensures r != [] ==> !IsSpace(r[|r| - 1])
    decreases |s|
  {
    if |s| > 0 && IsSpace(s[|s| - 1]) then TrimRight(s[..|s| - 1]) else s
  }

  /** `str.strip()`: the text between the leading and the trailing whitespace. */
  function Strip(s: string): (r: string)
    ensures |r| <= |s|
    ensures r != [] ==> !IsSpace(r[0]) && !IsSpace(r[|r| - 1])
  {
    TrimRight(TrimLeft(s))
  }

  // ---------------------------------------------------------------------
  // substring search
  // ---------------------------------------------------------------------

  predicate OccursAt(s: string, w: string, k: int) {
    0 <= k && k + |w| <= |s| && s[k..k + |w|] == w
  }

  /** Python's `w in s`: `w` occurs somewhere in `s` (the empty string occurs everywhere). */
  predicate Contains(s: string, w: string) {
    exists k | 0 <= k <= |s| - |w| :: OccursAt(s, w, k)
  }

  /** `s.startswith(p)`. */
  predicate StartsWith(s: string, p: string) {
    p <= s
  }

  /** The first index at or after `from` that holds `c`, if any. */
  function IndexOf(s: string, c: char, from: nat): (r: Option<nat>)
    ensures r.Some? ==> from <= r.value < |s| && s[r.value] == c
    ensures r.Some? ==> forall k :: from <= k < r.value ==> s[k] != c
    ensures r.None? ==> forall k :: from <= k < |s| ==> s[k] != c
    decreases |s| - from
  {
    if from >= |s| then None
    else if s[from] == c then Some(from)
    else IndexOf(s, c, from + 1)
  }

  // ---------------------------------------------------------------------
  // split and join
  // ---------------------------------------------------------------------

  /** `s.split(c)` for a one-character separator: always at least one piece. */
  function Split(s: string, c: char): (r: seq<string>)
    ensures |r| >= 1
    decreases |s|
  {
    if |s| == 0 then [""]
    else
      var rest := Split(s[1..], c);
      if s[0] == c then [""] + rest
      else [[s[0]] + rest[0]] + rest[1..]
  }

  /** `sep.join(parts)`. */
  function Join(sep: string, parts: seq<string>): string
    decreases |parts|
  {
    if |parts| == 0 then ""
    else if |parts| == 1 then parts[0]
    else parts[0] + sep + Join(sep, parts[1..])
  }

  /** Splitting at every whitespace character; `str.split()` drops the empty pieces. */
  function SplitAtSpaces(s: string): (r: seq<string>)
    ensures |r| >= 1
    decreases |s|
  {
    if |s| == 0 then [""]
    else
      var rest := SplitAtSpaces(s[1..]);
      if IsSpace(s[0]) then [""] + rest
      else [[s[0]] + rest[0]] + rest[1..]
  }

  function NonEmpty(parts: seq<string>): seq<string> {
    if |parts| == 0 then []
    else (if parts[0] == "" then [] else [parts[0]]) + NonEmpty(parts[1..])
  }

  /** `str.split()` with no argument: the maximal runs of non-whitespace. */
  function Words(s: string): seq<string> {
    NonEmpty(SplitAtSpaces(s))
  }

  // ---------------------------------------------------------------------
  // replace and isdigit
  // ---------------------------------------------------------------------

  /** `s.replace(pat, "")`: drop the non-overlapping occurrences of `pat`, scanning left to right. */
  function RemoveAll(s: string, pat: string): string
    requires |pat| > 0
    decreases |s|
  {
    if |s| == 0 then ""
    else if pat <= s then RemoveAll(s[|pat|..], pat)
    else [s[0]] + RemoveAll(s[1..], pat)
  }

  /** `str.isdigit()` on ASCII: non-empty and every character a decimal digit. */
  predicate IsDigits(s: string) {
    |s| > 0 && forall i :: 0 <= i < |s| ==> '0' <= s[i] <= '9'
  }

  // ---------------------------------------------------------------------
  // lemmas
  // ---------------------------------------------------------------------

  /** Joining the pieces of a split with the separator gives back the text. */
  lemma {:induction false} JoinSplit(s: string, c: char)
    ensures Join([c], Split(s, c)) == s
    decreases |s|
  {
    if |s| > 0 {
      var rest := Split(s[1..], c);
      JoinSplit(s[1..], c);
      if s[0] == c {
        assert Split(s, c) == [""] + rest;
        assert ([""] + rest)[1..] == rest;
      } else if |rest| == 1 {
        assert Split(s, c) == [[s[0]] + rest[0]];
      } else {
        var parts := [[s[0]] + rest[0]] + rest[1..];
        assert Split(s, c) == parts;
        assert parts[1..] == rest[1..];
        assert Join([c], rest) == rest[0] + [c] + Join([c], rest[1..]);
      }
    }
  }

  /** No piece of a split contains the separator. */
  lemma {:induction false} SplitPiecesFree(s: string, c: char)
    ensures forall p :: p in Split(s, c) ==> c !in p
    decreases |s|
  {
    if |s| > 0 {
      SplitPiecesFree(s[1..], c);
    }
  }

  lemma {:induction false} SplitNoSeparator(s: string, c: char)
    requires c !in s
    ensures Split(s, c) == [s]
    decreases |s|
  {
    if |s| > 0 {
      assert c !in s[1..] by {
        forall k | 0 <= k < |s[1..]| ensures s[1..][k] != c {
          assert s[1..][k] == s[k + 1];
        }
      }
      SplitNoSeparator(s[1..], c);
      assert [s[0]] + s[1..] == s;
    }
  }

  /** Splitting at a separator character splits the two sides independently. */
  lemma {:induction false} SplitConcat(a: string, b: string, c: char)
    ensures Split(a + [c] + b, c) == Split(a, c) + Split(b, c)
    decreases |a|
  {
    if |a| == 0 {
      assert a + [c] + b == [c] + b;
      SplitCons(c, b, c);
    } else {
      var x, t := a[0], a[1..];
      assert a == [x] + t;
      assert a + [c] + b == [x] + (t + [c] + b);
      var u := t + [c] + b;
      SplitConcat(t, b, c);
      SplitCons(x, u, c);
      SplitCons(x, t, c);
      ConsPieces(x, c, Split(u, c), Split(t, c), Split(b, c));
    }
  }

  /** Putting a character in front of a split commutes with appending further pieces. */
  lemma ConsPieces(x: char, c: char, whole: seq<string>, front: seq<string>, back: seq<string>)
    requires whole == front + back && |front| >= 1
    ensures (if x == c then [""] + whole else [[x] + whole[0]] + whole[1..])
         == (if x == c then [""] + front else [[x] + front[0]] + front[1..]) + back
  {
    if x == c {
      assert [""] + (front + back) == ([""] + front) + back;
    } else {
      GlueFirst([x], front, back);
    }
  }

  /** One step of `Split`: the first character either ends a piece or joins the first piece. */
  lemma SplitCons(x: char, t: string, c: char)
    ensures Split([x] + t, c) == if x == c then [""] + Split(t, c) else [[x] + Split(t, c)[0]] + Split(t, c)[1..]
  {
    assert ([x] + t)[1..] == t;
  }

  lemma GlueFirst(w: string, l: seq<string>, r: seq<string>)
    requires |l| >= 1
    ensures [w + (l + r)[0]] + (l + r)[1..] == ([w + l[0]] + l[1..]) + r
  {
    assert (l + r)[0] == l[0];
    assert (l + r)[1..] == l[1..] + r;
  }

  lemma OccursShift(s: string, w: string, k: int, p: string, q: string)
    requires OccursAt(s, w, k)
    ensures OccursAt(p + s + q, w, k + |p|)
  {
    assert (p + s + q)[k + |p|..k + |p| + |w|] == s[k..k + |w|];
  }

  /** A text contains every infix of itself. */
  lemma ContainsInfix(p: string, w: string, q: string)
    ensures Contains(p + w + q, w)
  {
    assert OccursAt(w, w, 0);
    OccursShift(w, w, 0, p, q);
  }

  /** `in` is transitive: an infix of an infix is an infix. */
  lemma ContainsTrans(a: string, b: string, c: string)
    requires Contains(b, a) && Contains(c, b)
    ensures Contains(c, a)
  {
    var i :| 0 <= i <= |b| - |a| && OccursAt(b, a, i);
    var j :| 0 <= j <= |c| - |b| && OccursAt(c, b, j);
    var u := c[j + i..j + i + |a|];
    forall t | 0 <= t < |a| ensures u[t] == a[t] {
      assert c[j..j + |b|][i + t] == c[j + i + t];
      assert b[i..i + |a|][t] == b[i + t];
    }
    assert OccursAt(c, a, j + i);
  }

  /** Each part of a join occurs in the joined text. */
  lemma {:induction false} JoinContainsPart(sep: string, parts: seq<string>, i: nat)
    requires i < |parts|
    ensures Contains(Join(sep, parts), parts[i])
    decreases |parts|
  {
    if |parts| == 1 {
      ContainsInfix("", parts[0], "");
      assert "" + parts[0] + "" == parts[0];
    } else if i == 0 {
      ContainsInfix("", parts[0], sep + Join(sep, parts[1..]));
      assert "" + parts[0] + (sep + Join(sep, parts[1..])) == Join(sep, parts);
    } else {
      JoinContainsPart(sep, parts[1..], i - 1);
      ContainsInfix(parts[0] + sep, Join(sep, parts[1..]), "");
      assert parts[0] + sep + Join(sep, parts[1..]) + "" == Join(sep, parts);
      ContainsTrans(parts[i], Join(sep, parts[1..]), Join(sep, parts));
    }
  }

  /** Each piece of a split occurs in the text that was split. */
  lemma SplitPieceContained(s: string, c: char, i: nat)
    requires i < |Split(s, c)|
    ensures Contains(s, Split(s, c)[i])
  {
    JoinSplit(s, c);
    JoinContainsPart([c], Split(s, c), i);
  }

  lemma {:induction false} TrimLeftKeepsWord(s: string, w: string, k: int)
    requires |w| > 0 && NoSpace(w) && OccursAt(s, w, k)
    ensures OccursAt(TrimLeft(s), w, k - (|s| - |TrimLeft(s)|))
    decreases |s|
  {
    if |s| > 0 && IsSpace(s[0]) {
      assert s[k] == w[0];
      assert k >= 1;
      assert s[1..][k - 1..k - 1 + |w|] == s[k..k + |w|];
      TrimLeftKeepsWord(s[1..], w, k - 1);
    }
  }

  lemma {:induction false} TrimRightKeepsWord(s: string, w: string, k: int)
    requires |w| > 0 && NoSpace(w) && OccursAt(s, w, k)
    ensures OccursAt(TrimRight(s), w, k)
    decreases |s|
  {
    if |s| > 0 && IsSpace(s[|s| - 1]) {
      assert s[k + |w| - 1] == w[|w| - 1];
      assert k + |w| < |s|;
      assert s[..|s| - 1][k..k + |w|] == s[k..k + |w|];
      TrimRightKeepsWord(s[..|s| - 1], w, k);
    }
  }

  /** Stripping the ends never removes a whitespace-free word from the text. */
  lemma StripKeepsWord(s: string, w: string)
    requires |w| > 0 && NoSpace(w) && Contains(s, w)
    ensures Contains(Strip(s), w)
  {
    var k :| 0 <= k <= |s| - |w| && OccursAt(s, w, k);
    TrimLeftKeepsWord(s, w, k);
    var k' := k - (|s| - |TrimLeft(s)|);
    TrimRightKeepsWord(TrimLeft(s), w, k');
  }

  lemma {:induction false} TrimLeftSpacePrefix(ws: string, x: string)
    requires AllSpace(ws)
    ensures TrimLeft(ws + x) == TrimLeft(x)
    decreases |ws|
  {
    if |ws| > 0 {
      assert (ws + x)[0] == ws[0] && IsSpace(ws[0]);
      assert (ws + x)[1..] == ws[1..] + x;
      assert TrimLeft(ws + x) == TrimLeft(ws[1..] + x);
      TrimLeftSpacePrefix(ws[1..], x);
    } else {
      assert ws + x == x;
    }
  }

  lemma {:induction false} TrimRightSpaceSuffix(x: string, ws: string)
    requires AllSpace(ws)
    ensures TrimRight(x + ws) == TrimRight(x)
    decreases |ws|
  {
    if |ws| > 0 {
      assert (x + ws)[|x + ws| - 1] == ws[|ws| - 1] && IsSpace(ws[|ws| - 1]);
      assert (x + ws)[..|x + ws| - 1] == x + ws[..|ws| - 1];
      TrimRightSpaceSuffix(x, ws[..|ws| - 1]);
    } else {
      assert x + ws == x;
    }
  }

  lemma {:induction false} TrimLeftAppend(x: string, y: string)
    ensures TrimLeft(x) != [] ==> TrimLeft(x + y) == TrimLeft(x) + y
    ensures TrimLeft(x) == [] ==> TrimLeft(x + y) == TrimLeft(y)
    decreases |x|
  {
    if |x| > 0 {
      assert (x + y)[0] == x[0];
      assert (x + y)[1..] == x[1..] + y;
      if IsSpace(x[0]) {
        TrimLeftAppend(x[1..], y);
      }
    } else {
      assert x + y == y;
    }
  }

  /** Whitespace around a text does not change what `strip` gives. */
  lemma StripSurrounded(ws1: string, p: string, ws2: string)
    requires AllSpace(ws1) && AllSpace(ws2)
    ensures Strip(ws1 + p + ws2) == Strip(p)
  {
    assert ws1 + p + ws2 == ws1 + (p + ws2);
    TrimLeftSpacePrefix(ws1, p + ws2);
    TrimLeftAppend(p, ws2);
    if TrimLeft(p) != [] {
      TrimRightSpaceSuffix(TrimLeft(p), ws2);
    } else {
      assert TrimLeft(ws2) == [];
    }
  }

  /** A text that neither starts nor ends with whitespace is its own strip. */
  lemma StripUnchanged(s: string)
    requires |s| > 0 && !IsSpace(s[0]) && !IsSpace(s[|s| - 1])
    ensures Strip(s) == s
  {
  }

  /** `replace` leaves alone a prefix in which the pattern's first character does not occur. */
  lemma {:induction false} RemoveAllSkipsPrefix(p: string, q: string, pat: string)
    requires |pat| > 0 && pat[0] !in p
    ensures RemoveAll(p + q, pat) == p + RemoveAll(q, pat)
    decreases |p|
  {
    if |p| > 0 {
      var s := p + q;
      assert s[0] == p[0] && s[0] != pat[0];
      assert !(pat <= s);
      assert s[1..] == p[1..] + q;
      RemoveAllSkipsPrefix(p[1..], q, pat);
      assert [p[0]] + p[1..] == p;
    } else {
      assert p + q == q;
    }
  }

  /** A text shorter than the pattern holds no occurrence of it. */
  lemma {:induction false} RemoveAllShort(s: string, pat: string)
    requires 0 < |pat| && |s| < |pat|
    ensures RemoveAll(s, pat) == s
    decreases |s|
  {
    if |s| > 0 {
      RemoveAllShort(s[1..], pat);
      assert [s[0]] + s[1..] == s;
    }
  }
}
