/**
 * How the line interpreter reads the lines the code generator writes: an
 * assignment, a compound assignment, a `print`, a `for ... range` header and an
 * `if` header, each classified back into the parts it was written from.
 */
module ScriptParse {
  import opened Wrappers
  import opened Text
  import opened Numerals
  import opened JsValues
  import opened Script

  /** A non-empty run of `\w` characters: a name the patterns accept. */
  predicate IsWord(s: string)
  {
    |s| > 0 && forall k :: 0 <= k < |s| ==> IsWordChar(s[k])
  }

  /** Text that `trim` leaves as it is. */
  predicate Clean(s: string)
  {
    |s| > 0 && !IsSpace(s[0]) && !IsSpace(s[|s| - 1])
  }

  predicate NoTerminator(s: string)
  {
    forall k :: 0 <= k < |s| ==> !IsLineTerminator(s[k])
  }

  // ---- the end of a run, pinned down by its two defining facts ----

  lemma WordEndIs(s: string, i: nat, r: nat)
    requires i <= r <= |s| && (forall k :: i <= k < r ==> IsWordChar(s[k])) && (r < |s| ==> !IsWordChar(s[r]))
    ensures WordEnd(s, i) == r
  {
  }

  lemma SpaceEndIs(s: string, i: nat, r: nat)
    requires i <= r <= |s| && (forall k :: i <= k < r ==> IsSpace(s[k])) && (r < |s| ==> !IsSpace(s[r]))
    ensures FirstNonSpaceFrom(s, i) == r
  {
  }

  lemma OpEndIs(s: string, i: nat, r: nat)
    requires i <= r <= |s| && (forall k :: i <= k < r ==> IsOpChar(s[k])) && (r < |s| ==> !IsOpChar(s[r]))
    ensures OpEnd(s, i) == r
  {
  }

  lemma DotEndAll(s: string, i: nat)
    requires i <= |s| && forall k :: i <= k < |s| ==> !IsLineTerminator(s[k])
    ensures DotEnd(s, i) == |s|
  {
  }

  // ---- the generator's lines ----

  /** `name = value` is an assignment of the trimmed value. */
  lemma ClassifyAssign(name: string, value: string)
    requires IsWord(name) && Clean(value) && '=' !in value
    ensures Classify(name + " = " + value) == Assign(name, value)
  {
    var line := name + " = " + value;
    AssignPieces(name, value);
    hide IsAssignment, SplitPiece, Trim;
    TrimPadded("", name, " ");
    assert "" + name + " " == name + " ";
    TrimPadded(" ", value, "");
    assert " " + value + "" == " " + value;
  }

  lemma AssignPieces(name: string, value: string)
    requires IsWord(name) && '=' !in value
    ensures var line := name + " = " + value;
      IsAssignment(line) && SplitPiece(line, "=", 0) == name + " " && SplitPiece(line, "=", 1) == " " + value
  {
    AssignMatches(name, value);
    AssignSplits(name, value);
  }

  lemma AssignMatches(name: string, value: string)
    requires IsWord(name)
    ensures IsAssignment(name + " = " + value)
  {
    var line := name + " = " + value;
    var n := |name|;
    assert forall k :: 0 <= k < n ==> line[k] == name[k];
    assert line[n] == ' ' && line[n + 1] == '=';
    WordEndIs(line, 0, n);
    SpaceEndIs(line, n, n + 1);
    assert OccursAt(line, "=", n + 1);
  }

  lemma AssignSplits(name: string, value: string)
    requires IsWord(name) && '=' !in value
    ensures var line := name + " = " + value;
      IndexOfFrom(line, "=", 0) != -1 &&
      SplitPiece(line, "=", 0) == name + " " && SplitPiece(line, "=", 1) == " " + value
  {
    var line := name + " = " + value;
    var n := |name|;
    assert forall k :: 0 <= k < n ==> line[k] == name[k];
    assert line[n] == ' ' && line[n + 1] == '=';
    assert OccursAt(line, "=", n + 1);
    FirstCharAbsent(line, "=", 0, n + 1);
    IndexOfFromFirst(line, "=", 0, n + 1);
    assert line[..n + 1] == name + " ";
    NoLaterAssign(name, value);
    assert IndexOfFrom(line, "=", n + 2) == -1;
    assert line[n + 2..] == " " + value;
  }

  /** `name += value` is a compound assignment of the trimmed value. */
  lemma ClassifyAddAssign(name: string, value: string)
    requires IsWord(name) && Clean(value) && !Contains(value, "+=")
    ensures Classify(name + " += " + value) == AddAssign(name, value)
  {
    var line := name + " += " + value;
    AddAssignPieces(name, value);
    hide IsAssignment, IsAddAssignment, SplitPiece, Trim;
    TrimPadded("", name, " ");
    assert "" + name + " " == name + " ";
    TrimPadded(" ", value, "");
    assert " " + value + "" == " " + value;
  }

  lemma AddAssignPieces(name: string, value: string)
    requires IsWord(name) && !Contains(value, "+=")
    ensures var line := name + " += " + value;
      !IsAssignment(line) && IsAddAssignment(line) &&
      SplitPiece(line, "+=", 0) == name + " " && SplitPiece(line, "+=", 1) == " " + value
  {
    AddAssignMatches(name, value);
    AddAssignSplits(name, value);
  }

  lemma AddAssignMatches(name: string, value: string)
    requires IsWord(name)
    ensures var line := name + " += " + value;
      !IsAssignment(line) && IsAddAssignment(line)
  {
    var line := name + " += " + value;
    var n := |name|;
    assert forall k :: 0 <= k < n ==> line[k] == name[k];
    assert line[n] == ' ' && line[n + 1] == '+' && line[n + 2] == '=';
    WordEndIs(line, 0, n);
    SpaceEndIs(line, n, n + 1);
    assert !OccursAt(line, "=", n + 1) by {
      assert line[n + 1..n + 2][0] == line[n + 1];
    }
    assert OccursAt(line, "+=", n + 1);
  }

  lemma AddAssignSplits(name: string, value: string)
    requires IsWord(name) && !Contains(value, "+=")
    ensures var line := name + " += " + value;
      IndexOfFrom(line, "+=", 0) != -1 &&
      SplitPiece(line, "+=", 0) == name + " " && SplitPiece(line, "+=", 1) == " " + value
  {
    var line := name + " += " + value;
    var n := |name|;
    assert forall k :: 0 <= k < n ==> line[k] == name[k];
    assert line[n] == ' ' && line[n + 1] == '+' && line[n + 2] == '=' && line[n + 3] == ' ';
    assert OccursAt(line, "+=", n + 1);
    FirstCharAbsent(line, "+=", 0, n + 1);
    IndexOfFromFirst(line, "+=", 0, n + 1);
    assert line[..n + 1] == name + " ";
    assert IndexOfFrom(line, "+=", n + 3) == -1 by {
      NoLaterAddAssign(name, value);
    }
    assert line[n + 3..] == " " + value;
  }

  /** No occurrence of `p` starts where its first character is absent. */
  lemma FirstCharAbsent(s: string, p: string, lo: nat, hi: nat)
    requires |p| > 0 && hi <= |s| && forall k :: lo <= k < hi ==> s[k] != p[0]
    ensures forall j :: lo <= j < hi ==> !OccursAt(s, p, j)
  {
    forall j | lo <= j < hi ensures !OccursAt(s, p, j) {
      if j + |p| <= |s| {
        assert s[j..j + |p|][0] == s[j];
      }
    }
  }

  lemma NoLaterAssign(name: string, value: string)
    requires '=' !in value
    ensures forall j :: |name| + 2 <= j ==> !OccursAt(name + " = " + value, "=", j)
  {
    var line := name + " = " + value;
    var n := |name|;
    forall j | n + 2 <= j ensures !OccursAt(line, "=", j) {
      if j + 1 <= |line| {
        assert line[j..j + 1][0] == line[j];
        if j > n + 2 {
          assert line[j] == value[j - n - 3];
        }
      }
    }
  }

  lemma NoLaterAddAssign(name: string, value: string)
    requires !Contains(value, "+=")
    ensures forall j :: |name| + 3 <= j ==> !OccursAt(name + " += " + value, "+=", j)
  {
    var line := name + " += " + value;
    var n := |name|;
    forall j | n + 3 <= j ensures !OccursAt(line, "+=", j) {
      if j + 2 <= |line| {
        if j == n + 3 {
          assert line[j..j + 2][0] == line[j] == ' ';
        } else {
          assert line[j..j + 2] == value[j - n - 4..j - n - 2];
          assert !OccursAt(value, "+=", j - n - 4);
        }
      }
    }
  }

  /** `print(content)` is a print of `content`. */
  lemma ClassifyPrint(content: string)
    ensures Classify("print(" + content + ")") == Print(content)
  {
    var line := "print(" + content + ")";
    assert forall k :: 0 <= k < 6 ==> line[k] == "print("[k];
    WordEndIs(line, 0, 5);
    SpaceEndIs(line, 5, 5);
    assert !OccursAt(line, "=", 5) by {
      assert line[5..6][0] == line[5];
    }
    assert !OccursAt(line, "+=", 5) by {
      assert line[5..7][0] == line[5];
    }
    assert StartsWith(line, "print(") by {
      assert line[..6] == "print(";
    }
    assert line[6..|line| - 1] == content;
  }

  /** The last occurrence in a window, pinned down by its defining facts. */
  lemma {:induction false} LastOccurrenceIs(s: string, p: string, lo: nat, hi: int, r: nat)
    requires lo <= r <= hi && OccursAt(s, p, r)
    requires forall k :: r < k <= hi ==> !OccursAt(s, p, k)
    ensures LastOccurrenceIn(s, p, lo, hi) == r
    decreases hi - lo
  {
    if hi > r {
      LastOccurrenceIs(s, p, lo, hi - 1, r);
    }
  }

  /** A line whose first word is followed by neither `=` nor `+=` is no assignment. */
  lemma NotAssignment(line: string, w: nat, f: nat)
    requires 0 < w <= f < |line| && WordEnd(line, 0) == w && FirstNonSpaceFrom(line, w) == f
    requires line[f] != '=' && line[f] != '+'
    ensures !IsAssignment(line) && !IsAddAssignment(line)
  {
    assert !OccursAt(line, "=", f) by {
      assert line[f..f + 1][0] == line[f];
    }
    if f + 2 <= |line| {
      assert line[f..f + 2][0] == line[f];
    }
  }

  /** A line that is no assignment, print or echo and starts with `for ` is classified by `range`. */
  lemma ClassifyForLine(line: string)
    requires !IsAssignment(line) && !IsAddAssignment(line)
    requires |line| > 0 && line[0] == 'f' && StartsWith(line, "for ")
    ensures Classify(line) == match MatchRange(line) case Some(g) => ForRange(g) case None => Inert
  {
    assert !StartsWith(line, "print(") by {
      if |line| >= 6 { assert line[..6][0] == line[0]; }
    }
    assert !StartsWith(line, "time.sleep") by {
      if |line| >= 10 { assert line[..10][0] == line[0]; }
    }
    assert !StartsWith(line, "avatar.move") by {
      if |line| >= 11 { assert line[..11][0] == line[0]; }
    }
  }

  /** A line that is no assignment, print, echo or loop and starts with `if ` is classified by the `if` pattern. */
  lemma ClassifyIfLine(line: string)
    requires !IsAssignment(line) && !IsAddAssignment(line)
    requires |line| > 0 && line[0] == 'i' && StartsWith(line, "if ")
    ensures Classify(line) == match MatchIf(line) case Some(m) => IfCompare(m.lhs, m.op, m.rhs) case None => Inert
  {
    assert !StartsWith(line, "print(") by {
      if |line| >= 6 { assert line[..6][0] == line[0]; }
    }
    assert !StartsWith(line, "time.sleep") by {
      if |line| >= 10 { assert line[..10][0] == line[0]; }
    }
    assert !StartsWith(line, "avatar.move") by {
      if |line| >= 11 { assert line[..11][0] == line[0]; }
    }
    assert !StartsWith(line, "for ") by {
      if |line| >= 4 { assert line[..4][0] == line[0]; }
    }
  }

  /** Positions where `range(` does not start leave the leftmost match to later ones. */
  lemma {:induction false} MatchRangeSkip(line: string, a: nat, b: nat)
    requires a <= b && b + 6 <= |line|
    requires forall p :: a <= p < b ==> !OccursAt(line, "range(", p)
    ensures MatchRangeFrom(line, a) == MatchRangeFrom(line, b)
    decreases b - a
  {
    if a < b {
      MatchRangeSkip(line, a + 1, b);
    }
  }

  /** The `range(` of a generated header is the first one on its line. */
  lemma ForHeaderNoEarlierRange(count: string)
    ensures forall p :: 0 <= p < 9 ==> !OccursAt("for i in range(" + count + "):", "range(", p)
  {
    var line := "for i in range(" + count + "):";
    assert forall k :: 0 <= k < 15 ==> line[k] == "for i in range("[k];
    forall p | 0 <= p < 9 ensures !OccursAt(line, "range(", p) {
      assert line[p..p + 6][0] == line[p];
      assert line[p..p + 6][1] == line[p + 1];
    }
  }

  /** The group of `range\((.+)\):` on a generated header is the count it was written with. */
  lemma MatchRangeHeader(count: string)
    requires |count| > 0 && NoTerminator(count)
    ensures MatchRange("for i in range(" + count + "):") == Some(count)
  {
    var line := "for i in range(" + count + "):";
    var n := |line|;
    ForHeaderNoEarlierRange(count);
    MatchRangeSkip(line, 0, 9);
    assert line[9..15] == "range(";
    assert OccursAt(line, "range(", 9);
    DotEndAll(line, 15);
    assert line[n - 2..n] == "):";
    LastOccurrenceIs(line, "):", 16, n, n - 2);
    assert line[15..n - 2] == count;
  }

  /** `for i in range(count):` is a loop header over `count`. */
  lemma ClassifyFor(count: string)
    requires |count| > 0 && NoTerminator(count)
    ensures Classify("for i in range(" + count + "):") == ForRange(count)
  {
    var line := "for i in range(" + count + "):";
    assert forall k :: 0 <= k < 15 ==> line[k] == "for i in range("[k];
    WordEndIs(line, 0, 3);
    SpaceEndIs(line, 3, 4);
    NotAssignment(line, 3, 4);
    assert line[..4] == "for ";
    ClassifyForLine(line);
    MatchRangeHeader(count);
  }

  predicate IsOperator(op: string)
  {
    |op| > 0 && forall k :: 0 <= k < |op| ==> IsOpChar(op[k])
  }

  /** The header written for an `if` block. */
  function IfHeader(lhs: string, op: string, rhs: string): string
  {
    "if " + lhs + " " + op + " " + rhs + ":"
  }

  /** Where the parts of an `if` header sit on its line. */
  lemma IfHeaderLayout(lhs: string, op: string, rhs: string)
    ensures var line := IfHeader(lhs, op, rhs);
      var c := 3 + |lhs|;
      var e := c + 1 + |op|;
      |line| == e + |rhs| + 2 &&
      line[0] == 'i' && line[1] == 'f' && line[2] == ' ' && line[c] == ' ' && line[e] == ' ' && line[|line| - 1] == ':' &&
      (forall k :: 3 <= k < c ==> line[k] == lhs[k - 3]) &&
      (forall k :: c + 1 <= k < e ==> line[k] == op[k - c - 1]) &&
      (forall k :: e + 1 <= k < |line| - 1 ==> line[k] == rhs[k - e - 1]) &&
      line[3..c] == lhs && line[c + 1..e] == op && line[e + 1..|line| - 1] == rhs
  {
  }

  /** After the operator of a generated header, one blank and the right operand up to the final `:`. */
  lemma IfHeaderRest(line: string, d: nat, e: nat)
    requires d < e && e + 2 < |line| && line[e] == ' ' && !IsSpace(line[e + 1]) && line[|line| - 1] == ':'
    requires forall k :: e + 1 <= k < |line| ==> !IsLineTerminator(line[k])
    ensures OpThenRest(line, d, e) == Some((e, e + 1, |line| - 1))
  {
    SpaceEndIs(line, e, e + 1);
    DotEndAll(line, e + 1);
    assert line[|line| - 1..|line|][0] == line[|line| - 1];
    LastOccurrenceIs(line, ":", e + 2, |line|, |line| - 1);
  }

  /** The three groups of the `if` pattern on a generated header are the parts it was written from. */
  lemma MatchIfHeader(lhs: string, op: string, rhs: string)
    requires IsWord(lhs) && IsOperator(op)
    requires |rhs| > 0 && !IsSpace(rhs[0]) && NoTerminator(rhs)
    ensures MatchIf(IfHeader(lhs, op, rhs)) == Some(IfParts(lhs, op, rhs))
  {
    MatchIfAtHeader(lhs, op, rhs);
    hide MatchIfAt, IfHeader;
  }

  /** The pattern, tried at the start of a generated header, matches there with its three parts. */
  lemma MatchIfAtHeader(lhs: string, op: string, rhs: string)
    requires IsWord(lhs) && IsOperator(op)
    requires |rhs| > 0 && !IsSpace(rhs[0]) && NoTerminator(rhs)
    ensures MatchIfAt(IfHeader(lhs, op, rhs), 0) == Some(IfParts(lhs, op, rhs))
  {
    var line := IfHeader(lhs, op, rhs);
    var c := 3 + |lhs|;
    var d := c + 1;
    var e := d + |op|;
    IfHeaderLayout(lhs, op, rhs);
    hide IfHeader;
    assert line[0..2] == "if";
    SpaceEndIs(line, 2, 3);
    WordEndIs(line, 3, c);
    SpaceEndIs(line, c, d);
    OpEndIs(line, d, e);
    IfHeaderRest(line, d, e);
    hide FirstNonSpaceFrom, WordEnd, OpEnd, OpThenRest;
  }

  /** `if lhs op rhs:` is a comparison header with those three parts. */
  lemma ClassifyIf(lhs: string, op: string, rhs: string)
    requires IsWord(lhs) && IsOperator(op)
    requires |rhs| > 0 && !IsSpace(rhs[0]) && NoTerminator(rhs)
    ensures Classify(IfHeader(lhs, op, rhs)) == IfCompare(lhs, op, rhs)
  {
    var line := IfHeader(lhs, op, rhs);
    IfHeaderLayout(lhs, op, rhs);
    hide IfHeader;
    WordEndIs(line, 0, 2);
    SpaceEndIs(line, 2, 3);
    NotAssignment(line, 2, 3);
    assert line[..3] == "if ";
    ClassifyIfLine(line);
    MatchIfHeader(lhs, op, rhs);
  }

  // ---- the tokens `evaluate` reads ----

  /** A printed integer evaluates to that integer, whatever is bound. */
  lemma EvaluateInt(vars: map<string, ScriptValue>, n: int)
    ensures Evaluate(vars, IntToString(n)) == Ok(IntVal(n))
  {
    var s := IntToString(n);
    IntToStringNoSpace(n);
    TrimPadded("", s, "");
    assert "" + s + "" == s;
    StringToNumberOfInt(n);
  }

  /** A text `trim` leaves alone that is no signed run of digits reads as `NaN`. */
  lemma StringToNumberNaN(e: string)
    requires Trim(e) == e && |e| > 0 && e[0] != '-' && e[0] != '+' && !AllDigits(e)
    ensures StringToNumber(e) == NaN
  {
  }

  /** A token in matching quotes evaluates to the text between them, whatever is bound. */
  lemma EvaluateQuoted(vars: map<string, ScriptValue>, q: char, text: string)
    requires q == '"' || q == '\''
    ensures Evaluate(vars, [q] + text + [q]) == Ok(StrVal(text))
  {
    var e := [q] + text + [q];
    hide StringToNumber, Trim;
    TrimPadded("", e, "");
    assert "" + e + "" == e;
    assert !IsDigit(e[0]) && !AllDigits(e);
    StringToNumberNaN(e);
    assert e[..1] == [q] && e[|e| - 1..] == [q];
    assert Quoted(e);
    assert e[1..|e| - 1] == text;
  }

  /** A name that is not all digits evaluates to its bound value, to itself when unbound, and throws once `hasOwnProperty` is bound. */
  lemma EvaluateName(vars: map<string, ScriptValue>, name: string)
    requires IsWord(name) && !AllDigits(name)
    ensures HasOwnPropertyName in vars ==> Evaluate(vars, name) == Err(HasOwnPropertyError)
    ensures HasOwnPropertyName !in vars && name in vars ==> Evaluate(vars, name) == Ok(vars[name])
    ensures HasOwnPropertyName !in vars && name !in vars ==> Evaluate(vars, name) == Ok(StrVal(name))
  {
    hide StringToNumber, Trim;
    TrimPadded("", name, "");
    assert "" + name + "" == name;
    assert IsWordChar(name[0]);
    StringToNumberNaN(name);
    assert !Quoted(name) by {
      assert !StartsWith(name, "\"") && !StartsWith(name, "'") by {
        assert name[..1][0] == name[0];
      }
    }
  }

  /**
   * `__proto__ = v` and `__proto__ += v` bind nothing, whatever they evaluate to,
   * and the unbound name then reads back as its own text.
   */
  lemma ProtoAssignIgnored(lines: seq<string>, i: nat, indent: int, expr: string, env: Env)
    requires i < |lines|
    ensures ExecStmt(lines, i, indent, Assign(ProtoName, expr), env).env == env
    ensures ExecStmt(lines, i, indent, AddAssign(ProtoName, expr), env).env == env
    ensures ProtoName !in env.vars && HasOwnPropertyName !in env.vars ==>
      Evaluate(env.vars, ProtoName) == Ok(StrVal(ProtoName))
  {
    hide Exec, Loop, Evaluate, EvaluateAll, BlockEnd;
    assert IsWord(ProtoName) && !AllDigits(ProtoName) by {
      assert IsWordChar(ProtoName[0]);
    }
    EvaluateName(env.vars, ProtoName);
  }

  /** The empty token, what `x == 5` assigns, evaluates to 0. */
  lemma EvaluateEmpty(vars: map<string, ScriptValue>)
    ensures Evaluate(vars, "") == Ok(IntVal(0))
  {
    assert AllSpace("");
  }

  /**
   * `x == 5` is an assignment: only the text between the first and the second
   * `=` is evaluated, and it is empty.
   */
  lemma ClassifyDoubleEquals(name: string, rest: string)
    requires IsWord(name)
    ensures Classify(name + " ==" + rest) == Assign(name, "")
  {
    DoubleEqualsMatches(name, rest);
    DoubleEqualsSplits(name, rest);
    hide IsAssignment, SplitPiece, Trim;
    TrimPadded("", name, " ");
    assert "" + name + " " == name + " ";
  }

  lemma DoubleEqualsMatches(name: string, rest: string)
    requires IsWord(name)
    ensures IsAssignment(name + " ==" + rest)
  {
    var line := name + " ==" + rest;
    var n := |name|;
    assert forall k :: 0 <= k < n ==> line[k] == name[k];
    assert line[n] == ' ' && line[n + 1] == '=';
    WordEndIs(line, 0, n);
    SpaceEndIs(line, n, n + 1);
    assert line[n + 1..n + 2] == "=";
  }

  lemma DoubleEqualsSplits(name: string, rest: string)
    requires IsWord(name)
    ensures var line := name + " ==" + rest;
      IndexOfFrom(line, "=", 0) != -1 &&
      SplitPiece(line, "=", 0) == name + " " && SplitPiece(line, "=", 1) == ""
  {
    var line := name + " ==" + rest;
    var n := |name|;
    assert forall k :: 0 <= k < n ==> line[k] == name[k];
    assert line[n] == ' ' && line[n + 1] == '=' && line[n + 2] == '=';
    assert line[n + 1..n + 2] == "=" && line[n + 2..n + 3] == "=";
    FirstCharAbsent(line, "=", 0, n + 1);
    IndexOfFromFirst(line, "=", 0, n + 1);
    IndexOfFromFirst(line, "=", n + 2, n + 2);
    assert line[..n + 1] == name + " ";
  }
}
