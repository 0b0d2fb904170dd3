/**
 * String primitives with the meaning JavaScript gives them: `trim`, the regex
 * classes `\s` and `\w`, `startsWith`, `indexOf`, `split`, `join` and `repeat`.
 */
module Text {

  /** JavaScript's `\s` (WhiteSpace and LineTerminator), which is also the set `trim` removes. */
  predicate IsSpace(c: char)
  {
    c == '\t' || c == '\n' || c == '\U{B}' || c == '\U{C}' || c == '\r' || c == ' ' ||
    c == '\U{A0}' || c == '\U{1680}' || ('\U{2000}' <= c <= '\U{200A}') ||
    c == '\U{2028}' || c == '\U{2029}' || c == '\U{202F}' || c == '\U{205F}' ||
    c == '\U{3000}' || c == '\U{FEFF}'
  }

  /** JavaScript's `\w`: an ASCII letter, digit or underscore. */
  predicate IsWordChar(c: char)
  {
    ('a' <= c <= 'z') || ('A' <= c <= 'Z') || ('0' <= c <= '9') || c == '_'
  }

  predicate IsDigit(c: char)
  {
    '0' <= c <= '9'
  }

  /** The characters a regex `.` does not match. */
  predicate IsLineTerminator(c: char)
  {
    c == '\n' || c == '\r' || c == '\U{2028}' || c == '\U{2029}'
  }

  predicate AllSpace(s: string)
  {
    forall k :: 0 <= k < |s| ==> IsSpace(s[k])
  }

  /** `s.search(/\S/)` with "not found" read as `|s|`: the column of the first non-blank character. */
  function FirstNonSpaceFrom(s: string, i: nat): (r: nat)
    requires i <= |s|
    ensures i <= r <= |s|
    ensures forall k :: i <= k < r ==> IsSpace(s[k])
    ensures r < |s| ==> !IsSpace(s[r])
    decreases |s| - i
  {
    if i == |s| || !IsSpace(s[i]) then i else FirstNonSpaceFrom(s, i + 1)
  }

  function FirstNonSpace(s: string): (r: nat)
    ensures r <= |s|
    ensures forall k :: 0 <= k < r ==> IsSpace(s[k])
    ensures r < |s| ==> !IsSpace(s[r])
  {
    FirstNonSpaceFrom(s, 0)
  }

  /** The end of the run of `\w` characters starting at `i`. */
  function WordEnd(s: string, i: nat): (r: nat)
    requires i <= |s|
    ensures i <= r <= |s|
    ensures forall k :: i <= k < r ==> IsWordChar(s[k])
    ensures r < |s| ==> !IsWordChar(s[r])
    decreases |s| - i
  {
    if i == |s| || !IsWordChar(s[i]) then i else WordEnd(s, i + 1)
  }

  /** The end of the run of characters a regex `.` matches, starting at `i`. */
  function DotEnd(s: string, i: nat): (r: nat)
    requires i <= |s|
    ensures i <= r <= |s|
    ensures forall k :: i <= k < r ==> !IsLineTerminator(s[k])
    ensures r < |s| ==> IsLineTerminator(s[r])
    decreases |s| - i
  {
    if i == |s| || IsLineTerminator(s[i]) then i else DotEnd(s, i + 1)
  }

  /** The last occurrence of `p` starting in `lo..hi` (both inclusive), or -1. */
  function LastOccurrenceIn(s: string, p: string, lo: nat, hi: int): (r: int)
    ensures r == -1 || (lo <= r <= hi && OccursAt(s, p, r))
    ensures r == -1 ==> forall k :: lo <= k <= hi ==> !OccursAt(s, p, k)
    ensures r != -1 ==> forall k :: r < k <= hi ==> !OccursAt(s, p, k)
    decreases hi - lo
  {
    if hi < lo then -1
    else if OccursAt(s, p, hi) then hi
    else LastOccurrenceIn(s, p, lo, hi - 1)
  }

  /** One past the last non-blank character at or before position `j`. */
  function TrimEndIndex(s: string, j: nat): (r: nat)
    requires j <= |s|
    ensures r <= j
    ensures forall k :: r <= k < j ==> IsSpace(s[k])
    ensures r > 0 ==> !IsSpace(s[r - 1])
  {
    if j == 0 || !IsSpace(s[j - 1]) then j else TrimEndIndex(s, j - 1)
  }

  /** `s.trim()`. */
  function Trim(s: string): (r: string)
    ensures |r| <= |s|
    ensures r == [] <==> AllSpace(s)
    ensures r != [] ==> !IsSpace(r[0]) && !IsSpace(r[|r| - 1])
  {
    var a := FirstNonSpace(s);
    var b := TrimEndIndex(s, |s|);
    if a < b then s[a..b] else []
  }

  /** `s.startsWith(p)`. */
  predicate StartsWith(s: string, p: string)
  {
    |p| <= |s| && s[..|p|] == p
  }

  /** `s.endsWith(p)`. */
  predicate EndsWith(s: string, p: string)
  {
    |p| <= |s| && s[|s| - |p|..] == p
  }

  predicate OccursAt(s: string, p: string, k: nat)
  {
    k + |p| <= |s| && s[k..k + |p|] == p
  }

  /** `s.indexOf(p, from)`: the first occurrence of the non-empty `p` at or after `from`, if any. */
  function IndexOfFrom(s: string, p: string, from: nat): (r: int)
    requires |p| > 0
    ensures r == -1 || (from <= r && OccursAt(s, p, r))
    ensures r == -1 ==> forall k :: from <= k ==> !OccursAt(s, p, k)
    ensures r != -1 ==> forall k :: from <= k < r ==> !OccursAt(s, p, k)
    decreases |s| - from
  {
    if from + |p| > |s| then -1
    else if s[from..from + |p|] == p then from
    else IndexOfFrom(s, p, from + 1)
  }

  /** `s.includes(p)`. */
  predicate Contains(s: string, p: string)
    requires |p| > 0
  {
    IndexOfFrom(s, p, 0) != -1
  }

  /**
   * `s.split(sep)[n]` for the two pieces the source reads: piece 0 is the text before the
   * first `sep`, piece 1 the text between the first and the second `sep` (or the end).
   */
  function SplitPiece(s: string, sep: string, piece: nat): (r: string)
    requires |sep| > 0 && piece <= 1 && IndexOfFrom(s, sep, 0) != -1
  {
    var first := IndexOfFrom(s, sep, 0);
    if piece == 0 then s[..first]
    else
      var second := IndexOfFrom(s, sep, first + |sep|);
      if second == -1 then s[first + |sep|..] else s[first + |sep|..second]
  }

  /** `s.split(c)` for a one-character separator. */
  function Split(s: string, c: char): (r: seq<string>)
    ensures |r| >= 1
    ensures forall k :: 0 <= k < |r| ==> c !in r[k]
    decreases |s|
  {
    var k := IndexOfFrom(s, [c], 0);
    if k == -1 then
      assert forall j :: 0 <= j < |s| ==> s[j] != c by {
        forall j | 0 <= j < |s| ensures s[j] != c { assert !OccursAt(s, [c], j); }
      }
      [s]
    else
      assert forall j :: 0 <= j < k ==> s[j] != c by {
        forall j | 0 <= j < k ensures s[j] != c { assert !OccursAt(s, [c], j); }
      }
      [s[..k]] + Split(s[k + 1..], c)
  }

  /** `parts.join(sep)`. */
  function Join(parts: seq<string>, sep: string): string
  {
    if |parts| == 0 then ""
    else if |parts| == 1 then parts[0]
    else parts[0] + sep + Join(parts[1..], sep)
  }

  /** `s.repeat(n)`. */
  function Repeat(s: string, n: nat): (r: string)
    ensures |r| == n * |s|
  {
    if n == 0 then "" else s + Repeat(s, n - 1)
  }

  /** Every line followed by a newline: the text the code generator accumulates. */
  function Unlines(lines: seq<string>): string
  {
    if |lines| == 0 then "" else lines[0] + "\n" + Unlines(lines[1..])
  }

  /** Splitting text built line by line gives back the lines, plus the empty piece after the last newline. */
  lemma {:induction false} SplitUnlines(lines: seq<string>)
    requires forall k :: 0 <= k < |lines| ==> '\n' !in lines[k]
    ensures Split(Unlines(lines), '\n') == lines + [""]
  {
    if |lines| == 0 {
      assert IndexOfFrom("", "\n", 0) == -1;
    } else {
      SplitLine(lines[0], Unlines(lines[1..]));
      SplitUnlines(lines[1..]);
      assert lines == [lines[0]] + lines[1..];
    }
  }

  /** The first piece of a split ends at the first separator. */
  lemma SplitLine(l: string, rest: string)
    requires '\n' !in l
    ensures Split(l + "\n" + rest, '\n') == [l] + Split(rest, '\n')
  {
    var s := l + "\n" + rest;
    forall k | 0 <= k < |l| ensures !OccursAt(s, "\n", k) {
      assert s[k] == l[k];
    }
    assert OccursAt(s, "\n", |l|);
    IndexOfFromFirst(s, "\n", 0, |l|);
    assert s[..|l|] == l;
    assert s[|l| + 1..] == rest;
  }

  /** `IndexOfFrom` returns the first occurrence. */
  lemma {:induction false} IndexOfFromFirst(s: string, p: string, from: nat, k: nat)
    requires |p| > 0 && from <= k && OccursAt(s, p, k)
    requires forall j :: from <= j < k ==> !OccursAt(s, p, j)
    ensures IndexOfFrom(s, p, from) == k
    decreases k - from
  {
    if from < k {
      assert !OccursAt(s, p, from);
      IndexOfFromFirst(s, p, from + 1, k);
    }
  }

  /** Blanks around a text that starts and ends with a non-blank: the first non-blank is where the text starts. */
  lemma FirstNonSpacePadded(p: string, s: string)
    requires AllSpace(p) && |s| > 0 && !IsSpace(s[0])
    ensures FirstNonSpace(p + s) == |p|
  {
    assert forall k :: 0 <= k < |p| ==> (p + s)[k] == p[k];
    assert (p + s)[|p|] == s[0];
  }

  lemma TrimEndPadded(s: string, q: string)
    requires AllSpace(q) && |s| > 0 && !IsSpace(s[|s| - 1])
    ensures TrimEndIndex(s + q, |s + q|) == |s|
  {
    assert forall k :: |s| <= k < |s + q| ==> (s + q)[k] == q[k - |s|];
    assert (s + q)[|s| - 1] == s[|s| - 1];
  }

  /** `trim` removes exactly the blanks around a text that starts and ends with a non-blank. */
  lemma TrimPadded(p: string, s: string, q: string)
    requires AllSpace(p) && AllSpace(q) && |s| > 0 && !IsSpace(s[0]) && !IsSpace(s[|s| - 1])
    ensures Trim(p + s + q) == s
  {
    var t := p + s + q;
    assert t == p + (s + q);
    FirstNonSpacePadded(p, s + q);
    assert t == (p + s) + q;
    TrimEndPadded(p + s, q);
    assert t[|p|..|p| + |s|] == s;
  }
}
