/**
 * Whole runs of the line interpreter on small scripts, worked out line by line.
 */
module ScriptExamples {
  import opened Wrappers
  import opened Text
  import opened Numerals
  import opened JsValues
  import opened Script
  import opened ScriptParse

  /** Text without a newline splits into itself. */
  lemma SplitSingle(s: string)
    requires '\n' !in s
    ensures Split(s, '\n') == [s]
  {
    forall j | 0 <= j ensures !OccursAt(s, "\n", j) {
      if j + 1 <= |s| {
        assert s[j..j + 1][0] == s[j];
      }
    }
    assert IndexOfFrom(s, "\n", 0) == -1;
  }

  /** A visit to a simple statement that completes moves on to the next line. */
  lemma SimpleVisit(lines: seq<string>, i: nat, minIndent: int, env: Env, stmt: Stmt, e: Env)
    requires i < |lines| && env.steps <= MaxSteps
    requires Trim(lines[i]) != "" && !StartsWith(Trim(lines[i]), "#") && FirstNonSpace(lines[i]) >= minIndent
    requires Classify(Trim(lines[i])) == stmt && !stmt.ForRange? && !stmt.IfCompare?
    requires ExecStmt(lines, i, FirstNonSpace(lines[i]), stmt, env.(steps := env.steps + 1)) == Completed(e)
    ensures Exec(lines, i, minIndent, env) == Exec(lines, i + 1, minIndent, e)
  {
    hide Exec, ExecStmt, Classify, Trim, FirstNonSpace, BlockEnd;
    ExecVisit(lines, i, minIndent, env);
  }

  /** A visit to a statement that throws writes the error line and ends the block at the end of the script. */
  lemma ThrownVisit(lines: seq<string>, i: nat, minIndent: int, env: Env, stmt: Stmt, e: Env, m: string)
    requires i < |lines| && env.steps <= MaxSteps
    requires Trim(lines[i]) != "" && !StartsWith(Trim(lines[i]), "#") && FirstNonSpace(lines[i]) >= minIndent
    requires Classify(Trim(lines[i])) == stmt
    requires ExecStmt(lines, i, FirstNonSpace(lines[i]), stmt, env.(steps := env.steps + 1)) == Thrown(e, m)
    ensures Exec(lines, i, minIndent, env) == Returned(e.(output := e.output + [ErrorLine(i, m)]), |lines|)
  {
    hide Exec, ExecStmt, Classify, Trim, FirstNonSpace, BlockEnd;
    ExecVisit(lines, i, minIndent, env);
  }

  /** A compound assignment whose expression evaluates adds to the current value, 0 when unbound. */
  lemma AddAssignStep(lines: seq<string>, i: nat, indent: int, name: string, expr: string, env: Env, v: ScriptValue)
    requires i < |lines| && Evaluate(env.vars, expr) == Ok(v)
    ensures ExecStmt(lines, i, indent, AddAssign(name, expr), env) ==
      Completed(env.(vars := SetProperty(env.vars, name, Plus(if name in env.vars then env.vars[name] else IntVal(0), v))))
  {
    hide Evaluate, Exec, Loop;
  }

  /** A loop header whose count evaluates runs the loop from pass 0. */
  lemma ForRangeStep(lines: seq<string>, i: nat, indent: int, count: string, env: Env, v: ScriptValue)
    requires i < |lines| && Evaluate(env.vars, count) == Ok(v)
    ensures ExecStmt(lines, i, indent, ForRange(count), env) == Loop(lines, i, indent, 0, LoopBound(v), env)
  {
    hide Evaluate, Exec, Loop;
  }

  // ---- a loop the step budget stops ----

  const LoopHeader: string := "for i in range(100000):"
  const LoopBody: string := "    x += 1"
  const LoopScript: string := "for i in range(100000):\n    x += 1"
  const LoopLines: seq<string> := [LoopHeader, LoopBody]

  /** The variables after `k` passes of the body. */
  function Counted(k: nat): map<string, ScriptValue>
  {
    if k == 0 then map[] else map["x" := IntVal(k)]
  }

  lemma LoopScriptLines()
    ensures Split(LoopScript, '\n') == LoopLines
  {
    assert Split(LoopScript, '\n') == [LoopHeader] + Split(LoopBody, '\n') by {
      assert LoopScript == LoopHeader + "\n" + LoopBody;
      SplitLine(LoopHeader, LoopBody);
    }
    assert Split(LoopBody, '\n') == [LoopBody] by {
      SplitSingle(LoopBody);
    }
  }

  /** One pass of the body: one visit, `x` one larger, and the block ends at the end of the script. */
  lemma BodyPass(env: Env, k: nat)
    requires env.steps <= MaxSteps && env.vars == Counted(k)
    ensures Exec(LoopLines, 1, 4, env) == Returned(env.(steps := env.steps + 1, vars := Counted(k + 1)), 2)
  {
    var env1 := env.(steps := env.steps + 1);
    var after := env1.(vars := Counted(k + 1));
    hide Exec, ExecStmt, Classify, Trim, FirstNonSpace, Evaluate, BlockEnd;
    BodyLineFacts();
    BodyStatement(env1, k);
    SimpleVisit(LoopLines, 1, 4, env, AddAssign("x", "1"), after);
    ExecAtEnd(LoopLines, 4, after);
  }

  /** `x += 1` adds one to the pass count held in `x`. */
  lemma BodyStatement(env: Env, k: nat)
    requires env.vars == Counted(k)
    ensures ExecStmt(LoopLines, 1, 4, AddAssign("x", "1"), env) == Completed(env.(vars := Counted(k + 1)))
  {
    hide Exec, ExecStmt, Classify, Trim, FirstNonSpace, Evaluate, BlockEnd;
    EvaluateInt(env.vars, 1);
    assert IntToString(1) == "1";
    AddAssignStep(LoopLines, 1, 4, "x", "1", env, IntVal(1));
    assert Plus(if "x" in env.vars then env.vars["x"] else IntVal(0), IntVal(1)) == IntVal(k + 1);
    assert env.vars["x" := IntVal(k + 1)] == Counted(k + 1);
  }

  /** The body line is `x += 1` indented by four. */
  lemma BodyLineFacts()
    ensures Trim(LoopBody) == "x += 1" && FirstNonSpace(LoopBody) == 4
    ensures !StartsWith("x += 1", "#") && Classify("x += 1") == AddAssign("x", "1")
  {
    hide Classify, Trim, FirstNonSpace;
    assert Trim(LoopBody) == "x += 1" by {
      TrimPadded("    ", "x += 1", "");
      assert "    " + "x += 1" + "" == LoopBody;
    }
    assert FirstNonSpace(LoopBody) == 4 by {
      FirstNonSpacePadded("    ", "x += 1");
      assert "    " + "x += 1" == LoopBody;
    }
    assert Classify("x += 1") == AddAssign("x", "1") by {
      ClassifyAddAssign("x", "1");
      assert "x" + " += " + "1" == "x += 1";
    }
  }

  /** From pass `k` on, the loop runs until the step counter passes the budget after pass 2000. */
  lemma {:induction false} LoopFrom(k: nat)
    requires k <= MaxSteps
    ensures Loop(LoopLines, 0, 0, k, 100000, Env(Counted(k), [StartLine], 1 + k)) ==
      Thrown(Env(Counted(MaxSteps), [StartLine], MaxSteps + 1), LoopError)
    decreases MaxSteps - k
  {
    var env := Env(Counted(k), [StartLine], 1 + k);
    if k < MaxSteps {
      BodyPass(env, k);
      LoopFrom(k + 1);
      hide Exec;
    }
  }

  /** The header reads as a `for` over 100000, and its count evaluates to 100000. */
  lemma HeaderFacts()
    ensures Trim(LoopHeader) == LoopHeader && FirstNonSpace(LoopHeader) == 0 && !StartsWith(LoopHeader, "#")
    ensures Classify(LoopHeader) == ForRange("100000")
    ensures Evaluate(map[], "100000") == Ok(IntVal(100000))
  {
    hide Classify, Trim, FirstNonSpace, Evaluate;
    assert Trim(LoopHeader) == LoopHeader by {
      TrimPadded("", LoopHeader, "");
      assert "" + LoopHeader + "" == LoopHeader;
    }
    assert FirstNonSpace(LoopHeader) == 0 by {
      FirstNonSpacePadded("", LoopHeader);
    }
    assert Classify(LoopHeader) == ForRange("100000") by {
      ClassifyFor("100000");
      assert "for i in range(" + "100000" + "):" == LoopHeader;
    }
    assert Evaluate(map[], "100000") == Ok(IntVal(100000)) by {
      assert IntToString(100000) == "100000" by {
        assert NatToString(1) == "1";
        assert NatToString(10) == "10";
        assert NatToString(100) == "100";
        assert NatToString(1000) == "1000";
        assert NatToString(10000) == "10000";
      }
      EvaluateInt(map[], 100000);
    }
  }

  /** The header's loop is stopped by its budget check after 2000 passes. */
  lemma HeaderStatement()
    ensures ExecStmt(LoopLines, 0, 0, ForRange("100000"), Env(map[], [StartLine], 1)) ==
      Thrown(Env(Counted(MaxSteps), [StartLine], MaxSteps + 1), LoopError)
  {
    hide Exec, ExecStmt, Split, Classify, Trim, FirstNonSpace, Evaluate, BlockEnd, Loop;
    HeaderFacts();
    assert Counted(0) == map[];
    LoopFrom(0);
    assert LoopBound(IntVal(100000)) == 100000;
    ForRangeStep(LoopLines, 0, 0, "100000", Env(map[], [StartLine], 1), IntVal(100000));
  }

  /**
   * `for i in range(100000):` over `x += 1`: the body runs 2000 times, the loop's
   * own budget check throws, and the header's line handler reports it.
   */
  lemma LoopStoppedByBudget()
    ensures Exec(LoopLines, 0, 0, StartEnv) ==
      Returned(Env(map["x" := IntVal(2000)], [StartLine, "Error on line 1: " + LoopError], 2001), 2)
  {
    hide Exec, ExecStmt, Split, Classify, Trim, FirstNonSpace, Evaluate, BlockEnd, Loop;
    HeaderFacts();
    HeaderStatement();
    assert ErrorLine(0, LoopError) == "Error on line 1: " + LoopError by {
      assert IntToString(1) == "1";
    }
    ThrownVisit(LoopLines, 0, 0, StartEnv, ForRange("100000"), Env(Counted(MaxSteps), [StartLine], MaxSteps + 1), LoopError);
  }

  /** The whole run of that script: the start line, the loop's error line, and a normal finish. */
  lemma LoopScriptOutput()
    ensures RunScript(LoopScript) == [StartLine, "Error on line 1: Infinite loop detected", FinishLine]
  {
    hide Exec, Split;
    LoopStoppedByBudget();
    LoopScriptLines();
    assert "Error on line 1: " + LoopError == "Error on line 1: Infinite loop detected";
  }

  // ---- `==` read as an assignment ----

  const EqualsScript: string := "x == 5\nprint(x)"
  const EqualsLines: seq<string> := ["x == 5", "print(x)"]

  /** An assignment whose expression evaluates binds the name. */
  lemma AssignStep(lines: seq<string>, i: nat, indent: int, name: string, expr: string, env: Env, v: ScriptValue)
    requires i < |lines| && Evaluate(env.vars, expr) == Ok(v)
    ensures ExecStmt(lines, i, indent, Assign(name, expr), env) == Completed(env.(vars := SetProperty(env.vars, name, v)))
  {
    hide Evaluate, Exec, Loop;
  }

  /** A print without a comma whose content evaluates writes `> ` and the shown value. */
  lemma PrintStep(lines: seq<string>, i: nat, indent: int, content: string, env: Env, v: ScriptValue)
    requires i < |lines| && !Contains(content, ",") && Evaluate(env.vars, content) == Ok(v)
    ensures ExecStmt(lines, i, indent, Print(content), env) == Completed(env.(output := env.output + ["> " + Show(v)]))
  {
    hide Evaluate, EvaluateAll, Exec, Loop;
  }

  lemma EqualsScriptLines()
    ensures Split(EqualsScript, '\n') == EqualsLines
  {
    hide Split;
    var first, second := "x == 5", "print(x)";
    assert EqualsScript == first + "\n" + second;
    assert forall k :: 0 <= k < |first| ==> first[k] != '\n';
    assert forall k :: 0 <= k < |second| ==> second[k] != '\n';
    SplitLine(first, second);
    SplitSingle(second);
    assert EqualsLines == [first] + [second];
  }

  /** How the two lines read: trimmed already, unindented, an assignment of the empty token and a print of `x`. */
  lemma EqualsLineFacts()
    ensures Trim("x == 5") == "x == 5" && FirstNonSpace("x == 5") == 0 && !StartsWith("x == 5", "#")
    ensures Trim("print(x)") == "print(x)" && FirstNonSpace("print(x)") == 0 && !StartsWith("print(x)", "#")
    ensures Classify("x == 5") == Assign("x", "") && Classify("print(x)") == Print("x")
  {
    hide Classify, Trim, FirstNonSpace;
    assert Trim("x == 5") == "x == 5" by {
      TrimPadded("", "x == 5", "");
      assert "" + "x == 5" + "" == "x == 5";
    }
    assert Trim("print(x)") == "print(x)" by {
      TrimPadded("", "print(x)", "");
      assert "" + "print(x)" + "" == "print(x)";
    }
    FirstNonSpacePadded("", "x == 5");
    FirstNonSpacePadded("", "print(x)");
    assert Classify("x == 5") == Assign("x", "") by {
      ClassifyDoubleEquals("x", " 5");
      assert "x" + " ==" + " 5" == "x == 5";
    }
    assert Classify("print(x)") == Print("x") by {
      ClassifyPrint("x");
      assert "print(" + "x" + ")" == "print(x)";
    }
  }

  /** The two statements: `x` bound to 0, then `> 0` written. */
  lemma EqualsStatements()
    ensures ExecStmt(EqualsLines, 0, 0, Assign("x", ""), Env(map[], [StartLine], 1)) ==
      Completed(Env(map["x" := IntVal(0)], [StartLine], 1))
    ensures ExecStmt(EqualsLines, 1, 0, Print("x"), Env(map["x" := IntVal(0)], [StartLine], 2)) ==
      Completed(Env(map["x" := IntVal(0)], [StartLine, "> 0"], 2))
  {
    hide Exec, ExecStmt, Evaluate, Loop;
    EvaluateEmpty(map[]);
    AssignStep(EqualsLines, 0, 0, "x", "", Env(map[], [StartLine], 1), IntVal(0));
    assert map[]["x" := IntVal(0)] == map["x" := IntVal(0)];
    var vars := map["x" := IntVal(0)];
    assert IsWord("x") && !AllDigits("x") by {
      assert "x"[0] == 'x' && !IsDigit("x"[0]);
    }
    assert HasOwnPropertyName !in vars;
    EvaluateName(vars, "x");
    assert !Contains("x", ",");
    PrintStep(EqualsLines, 1, 0, "x", Env(vars, [StartLine], 2), IntVal(0));
    assert Show(IntVal(0)) == "0" by {
      assert IntToString(0) == "0";
    }
    assert "> " + Show(IntVal(0)) == "> 0" by {
      assert "> " + "0" == "> 0";
    }
    assert [StartLine] + ["> " + Show(IntVal(0))] == [StartLine, "> 0"];
  }

  /**
   * `x == 5` followed by `print(x)`: the first line is taken for an assignment
   * of the empty text between its two `=`, which reads as 0.
   */
  lemma EqualsScriptOutput()
    ensures RunScript(EqualsScript) == [StartLine, "> 0", FinishLine]
  {
    hide Exec, ExecStmt, Split, Classify, Trim, FirstNonSpace, Evaluate, BlockEnd, Loop;
    EqualsLineFacts();
    EqualsStatements();
    var e1 := Env(map["x" := IntVal(0)], [StartLine], 1);
    var e2 := Env(map["x" := IntVal(0)], [StartLine, "> 0"], 2);
    SimpleVisit(EqualsLines, 0, 0, StartEnv, Assign("x", ""), e1);
    SimpleVisit(EqualsLines, 1, 0, e1, Print("x"), e2);
    ExecAtEnd(EqualsLines, 0, e2);
    EqualsScriptLines();
  }
}
