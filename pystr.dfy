/**
 * The handful of Python `str` operations the log scanner uses, on `seq<char>`:
 * the `in` substring test, `split()` with no separator, `replace(c, '')`,
 * `strip(c)` with one character, and the last element of `split(sep)`.
 */
module PyStr {

  /**
   * The white space of a Python 2 byte string: `str.isspace()` holds, and
   * `split()` breaks, on space, `\t`, `\n`, `\x0b`, `\x0c` and `\r` only.
   */
  predicate IsSpace(c: char) {
    c == ' ' || ('\t' <= c <= '\r')
  }

  predicate NoSpace(s: string) {
    forall i | 0 <= i < |s| :: !IsSpace(s[i])
  }

  predicate AllSpace(s: string) {
    forall i | 0 <= i < |s| :: IsSpace(s[i])
  }

  // ---------------------------------------------------------------------------
  // `p in s`

  /** Python's `p in s` for strings: `p` occurs in `s` as a contiguous substring. */
  predicate Contains(s: string, p: string)
    decreases |s|
  {
    p <= s || (s != [] && Contains(s[1..], p))
  }

  /** `p` occurs in `s` starting at index `i`. */
  ghost predicate OccursAt(s: string, p: string, i: int) {
    0 <= i && i + |p| <= |s| && s[i..i + |p|] == p
  }

  /** An occurrence at index 0 is a prefix. */
  lemma OccursAtStart(s: string, p: string)
    ensures OccursAt(s, p, 0) <==> p <= s
  {
    if |p| <= |s| {
      assert s[..|p|] == s[0..|p|];
    }
  }

  /** Occurrences in the tail are the occurrences past index 0, shifted by one. */
  lemma OccursShift(s: string, p: string, i: int)
    requires s != [] && 0 <= i
    ensures OccursAt(s[1..], p, i) <==> OccursAt(s, p, i + 1)
  {
    if i + |p| <= |s| - 1 {
      assert s[1..][i..i + |p|] == s[i + 1..i + 1 + |p|];
    }
  }

  /** `Contains` finds exactly the occurrences `OccursAt` describes. */
  lemma {:induction false} ContainsIff(s: string, p: string)
    ensures Contains(s, p) <==> exists i :: OccursAt(s, p, i)
    decreases |s|
  {
    OccursAtStart(s, p);
    if s != [] && !(p <= s) {
      ContainsIff(s[1..], p);
      forall i | OccursAt(s[1..], p, i) ensures OccursAt(s, p, i + 1) {
        OccursShift(s, p, i);
      }
      forall i | OccursAt(s, p, i) ensures OccursAt(s[1..], p, i - 1) {
        OccursShift(s, p, i - 1);
      }
    }
  }

  // ---------------------------------------------------------------------------
  // `s.split()`

  /** Length of the maximal run of non-space characters at the front of `s`. */
  function TokenLen(s: string): (k: nat)
    ensures k <= |s|
    ensures forall i | 0 <= i < k :: !IsSpace(s[i])
    ensures k < |s| ==> IsSpace(s[k])
  {
    if s == [] || IsSpace(s[0]) then 0 else 1 + TokenLen(s[1..])
  }

  /** Python's `s.split()`: the maximal runs of non-space characters, in order. */
  function Words(s: string): (ws: seq<string>)
    ensures forall j | 0 <= j < |ws| :: ws[j] != [] && NoSpace(ws[j])
    decreases |s|
  {
    if s == [] then []
    else if IsSpace(s[0]) then Words(s[1..])
    else
      var k := TokenLen(s);
      [s[..k]] + Words(s[k..])
  }

  /** `split()` finds no word exactly when the string is all white space. */
  lemma {:induction false} WordsEmptyIff(s: string)
    ensures Words(s) == [] <==> AllSpace(s)
    decreases |s|
  {
    if s != [] && IsSpace(s[0]) {
      WordsEmptyIff(s[1..]);
      assert forall i | 1 <= i < |s| :: s[i] == s[1..][i - 1];
    }
  }

  lemma TokenLenAppend(p: string, q: string)
    requires q == [] || IsSpace(q[0])
    ensures TokenLen(p + q) == TokenLen(p)
    decreases |p|
  {
    if p != [] && !IsSpace(p[0]) {
      assert (p + q)[1..] == p[1..] + q;
      TokenLenAppend(p[1..], q);
    }
  }

  /** A single word splits to itself. */
  lemma WordsOfWord(w: string)
    requires w != [] && NoSpace(w)
    ensures Words(w) == [w]
  {
    TokenLenFull(w);
    assert w[..|w|] == w;
    assert w[|w|..] == [];
  }

  lemma TokenLenFull(w: string)
    requires NoSpace(w)
    ensures TokenLen(w) == |w|
    decreases |w|
  {
    if w != [] {
      TokenLenFull(w[1..]);
    }
  }

  /**
   * Appending white space and one more word to a line appends that word to
   * its `split()`; so that word is the line's `split()[-1]`, whatever precedes it.
   */
  lemma {:induction false} WordsAppendWord(p: string, c: char, w: string)
    requires IsSpace(c) && w != [] && NoSpace(w)
    ensures Words(p + [c] + w) == Words(p) + [w]
    decreases |p|
  {
    var s := p + [c] + w;
    if p == [] {
      assert s[1..] == w;
      WordsOfWord(w);
    } else if IsSpace(p[0]) {
      assert s[1..] == p[1..] + [c] + w;
      WordsAppendWord(p[1..], c, w);
    } else {
      var k := TokenLen(p);
      assert TokenLen(s) == k by {
        assert s == p + ([c] + w);
        TokenLenAppend(p, [c] + w);
      }
      assert s[..k] == p[..k];
      assert s[k..] == p[k..] + [c] + w;
      WordsAppendWord(p[k..], c, w);
    }
  }

  /** White space after the last word adds no word. */
  lemma {:induction false} WordsTrailingSpace(s: string, q: string)
    requires AllSpace(q)
    ensures Words(s + q) == Words(s)
    decreases |s|
  {
    if s == [] {
      assert s + q == q;
      WordsEmptyIff(q);
    } else if IsSpace(s[0]) {
      assert (s + q)[1..] == s[1..] + q;
      WordsTrailingSpace(s[1..], q);
    } else {
      var k := TokenLen(s);
      TokenLenAppend(s, q);
      assert (s + q)[..k] == s[..k];
      assert (s + q)[k..] == s[k..] + q;
      WordsTrailingSpace(s[k..], q);
    }
  }

  /** White space before the first word adds no word. */
  lemma {:induction false} WordsLeadingSpace(q: string, s: string)
    requires AllSpace(q)
    ensures Words(q + s) == Words(s)
    decreases |q|
  {
    if q == [] {
      assert q + s == s;
    } else {
      assert (q + s)[1..] == q[1..] + s;
      WordsLeadingSpace(q[1..], s);
    }
  }

  // ---------------------------------------------------------------------------
  // `s.strip()`

  /** Python's `s.lstrip()`: drop the leading white space. */
  function StripSpaceLeft(s: string): string {
    if s != [] && IsSpace(s[0]) then StripSpaceLeft(s[1..]) else s
  }

  /** Python's `s.rstrip()`: drop the trailing white space. */
  function StripSpaceRight(s: string): string {
    if s != [] && IsSpace(s[|s| - 1]) then StripSpaceRight(s[..|s| - 1]) else s
  }

  /** Python's `s.strip()`: drop the leading and the trailing white space. */
  function StripSpace(s: string): string {
    StripSpaceRight(StripSpaceLeft(s))
  }

  /** `lstrip()` leaves a suffix that does not start with white space, and drops only white space. */
  lemma {:induction false} StripSpaceLeftShape(s: string)
    ensures var r := StripSpaceLeft(s);
      && |r| <= |s| && r == s[|s| - |r|..]
      && AllSpace(s[..|s| - |r|])
      && (r == [] || !IsSpace(r[0]))
    decreases |s|
  {
    if s != [] && IsSpace(s[0]) {
      StripSpaceLeftShape(s[1..]);
      var r := StripSpaceLeft(s[1..]);
      assert s[..|s| - |r|] == [s[0]] + s[1..][..|s| - 1 - |r|];
    }
  }

  /** `rstrip()` leaves a prefix that does not end with white space, and drops only white space. */
  lemma {:induction false} StripSpaceRightShape(s: string)
    ensures var r := StripSpaceRight(s);
      && |r| <= |s| && r == s[..|r|]
      && AllSpace(s[|r|..])
      && (r == [] || !IsSpace(r[|r| - 1]))
    decreases |s|
  {
    if s != [] && IsSpace(s[|s| - 1]) {
      StripSpaceRightShape(s[..|s| - 1]);
      var r := StripSpaceRight(s[..|s| - 1]);
      assert s[|r|..] == s[..|s| - 1][|r|..] + [s[|s| - 1]];
    }
  }

  /** `strip()` before `split()` changes nothing. */
  lemma WordsStripSpace(s: string)
    ensures Words(StripSpace(s)) == Words(s)
  {
    WordsStripSpaceLeft(s);
    WordsStripSpaceRight(StripSpaceLeft(s));
  }

  lemma WordsStripSpaceLeft(s: string)
    ensures Words(StripSpaceLeft(s)) == Words(s)
  {
    StripSpaceLeftShape(s);
    var a := StripSpaceLeft(s);
    var q := s[..|s| - |a|];
    assert s == q + a;
    WordsLeadingSpace(q, a);
  }

  lemma WordsStripSpaceRight(a: string)
    ensures Words(StripSpaceRight(a)) == Words(a)
  {
    StripSpaceRightShape(a);
    var r := StripSpaceRight(a);
    var q := a[|r|..];
    assert a == r + q;
    WordsTrailingSpace(r, q);
  }

  // ---------------------------------------------------------------------------
  // `s.replace(c, '')`

  /** Python's `s.replace(c, '')`: `s` with every `c` removed. */
  function Delete(s: string, c: char): (r: string)
    ensures |r| <= |s|
    ensures c !in r
  {
    if s == [] then [] else (if s[0] == c then [] else [s[0]]) + Delete(s[1..], c)
  }

  /** Deleting distributes over concatenation. */
  lemma {:induction false} DeleteConcat(a: string, b: string, c: char)
    ensures Delete(a + b, c) == Delete(a, c) + Delete(b, c)
    decreases |a|
  {
    if a != [] {
      assert (a + b)[1..] == a[1..] + b;
      DeleteConcat(a[1..], b, c);
    } else {
      assert a + b == b;
    }
  }

  /** Deleting a character that does not occur changes nothing. */
  lemma {:induction false} DeleteAbsent(s: string, c: char)
    requires c !in s
    ensures Delete(s, c) == s
    decreases |s|
  {
    if s != [] {
      DeleteAbsent(s[1..], c);
    }
  }

  // ---------------------------------------------------------------------------
  // `s.strip(c)`

  /** Python's `s.lstrip(c)`: drop the leading run of `c`. */
  function StripLeft(s: string, c: char): (r: string)
    ensures |r| <= |s| && r == s[|s| - |r|..]
    ensures forall i | 0 <= i < |s| - |r| :: s[i] == c
    ensures r == [] || r[0] != c
  {
    if s != [] && s[0] == c then StripLeft(s[1..], c) else s
  }

  /** Python's `s.rstrip(c)`: drop the trailing run of `c`. */
  function StripRight(s: string, c: char): (r: string)
    ensures |r| <= |s| && r == s[..|r|]
    ensures forall i | |r| <= i < |s| :: s[i] == c
    ensures r == [] || r[|r| - 1] != c
  {
    if s != [] && s[|s| - 1] == c then StripRight(s[..|s| - 1], c) else s
  }

  /** Python's `s.strip(c)`: drop the leading and the trailing runs of `c`. */
  function Strip(s: string, c: char): string {
    StripRight(StripLeft(s, c), c)
  }

  /** Leading `c` stop at the first other character, so a tail starting with one survives intact. */
  lemma {:induction false} StripLeftAppend(a: string, b: string, c: char)
    requires b != [] && b[0] != c
    ensures StripLeft(a + b, c) == StripLeft(a, c) + b
    decreases |a|
  {
    if a == [] {
      assert a + b == b;
    } else if a[0] == c {
      assert (a + b)[1..] == a[1..] + b;
      StripLeftAppend(a[1..], b, c);
    }
  }

  /** One trailing `c` after a character other than `c` is all `rstrip` removes. */
  lemma StripRightOne(a: string, c: char)
    requires a != [] && a[|a| - 1] != c
    ensures StripRight(a + [c], c) == a
  {
    assert (a + [c])[..|a|] == a;
  }

  // ---------------------------------------------------------------------------
  // `s.split(sep)[-1]`

  /** Python's `s.split(sep)[-1]`: the text after the last `sep`, or all of `s` when it has none. */
  function LastSegment(s: string, sep: char): (r: string)
    ensures |r| <= |s| && r == s[|s| - |r|..]
    ensures sep !in r
    ensures |r| < |s| ==> s[|s| - |r| - 1] == sep
  {
    if s == [] || s[|s| - 1] == sep then [] else LastSegment(s[..|s| - 1], sep) + [s[|s| - 1]]
  }

  /** Whatever precedes the last separator is irrelevant to the last segment. */
  lemma {:induction false} LastSegmentAfter(a: string, sep: char, d: string)
    requires sep !in d
    ensures LastSegment(a + [sep] + d, sep) == d
    decreases |d|
  {
    var s := a + [sep] + d;
    if d == [] {
      assert s[|s| - 1] == sep;
    } else {
      var d' := d[..|d| - 1];
      assert s[..|s| - 1] == a + [sep] + d';
      assert s[|s| - 1] == d[|d| - 1];
      LastSegmentAfter(a, sep, d');
      assert d' + [d[|d| - 1]] == d;
    }
  }
}
