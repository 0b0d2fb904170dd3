/** Relations between sequences that the editors' lemmas share. */
module Sequences {
  /** `s` is `t` with some elements left out. */
  predicate IsSubsequence<T(==)>(s: seq<T>, t: seq<T>)
    decreases |t|
  {
    if |t| == 0 then |s| == 0
    else (|s| > 0 && s[0] == t[0] && IsSubsequence(s[1..], t[1..])) || IsSubsequence(s, t[1..])
  }

  lemma {:induction false} SubsequenceEmpty<T>(t: seq<T>)
    ensures IsSubsequence([], t)
    decreases |t|
  {
    if |t| > 0 {
      SubsequenceEmpty(t[1..]);
    }
  }

  lemma {:induction false} SubsequenceAppend<T>(s1: seq<T>, t1: seq<T>, s2: seq<T>, t2: seq<T>)
    requires IsSubsequence(s1, t1) && IsSubsequence(s2, t2)
    ensures IsSubsequence(s1 + s2, t1 + t2)
    decreases |t1|
  {
    if |t1| == 0 {
      assert s1 + s2 == s2 && t1 + t2 == t2;
    } else {
      assert (t1 + t2)[1..] == t1[1..] + t2;
      assert (t1 + t2)[0] == t1[0];
      if |s1| > 0 && s1[0] == t1[0] && IsSubsequence(s1[1..], t1[1..]) {
        assert (s1 + s2)[1..] == s1[1..] + s2;
        assert (s1 + s2)[0] == s1[0];
        SubsequenceAppend(s1[1..], t1[1..], s2, t2);
      } else {
        SubsequenceAppend(s1, t1[1..], s2, t2);
      }
    }
  }

  lemma {:induction false} SubsequenceLeftPad<T>(t1: seq<T>, s2: seq<T>, t2: seq<T>)
    requires IsSubsequence(s2, t2)
    ensures IsSubsequence(s2, t1 + t2)
    decreases |t1|
  {
    if |t1| == 0 {
      assert t1 + t2 == t2;
    } else {
      assert (t1 + t2)[1..] == t1[1..] + t2;
      SubsequenceLeftPad(t1[1..], s2, t2);
    }
  }
}
