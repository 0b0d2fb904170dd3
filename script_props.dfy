/**
 * What a run of `runPythonCode` guarantees: the output starts with the start
 * line and ends with exactly one finish or runtime-error line, every line in
 * between is a `"> "` line or a per-line error, and the shared budget bounds
 * how many lines are written. Also the source's corner cases, worked out.
 */
module ScriptProps {
  import opened Wrappers
  import opened Text
  import opened Numerals
  import opened JsValues
  import opened Script

  /** A line a statement or the per-line `catch` writes. */
  predicate Tagged(line: string)
  {
    StartsWith(line, "> ") || StartsWith(line, "Error on line ")
  }

  /** The step counter as a count of dispatching visits: visits after the budget is spent dispatch nothing. */
  function Dispatched(steps: int): int
  {
    if steps <= MaxSteps + 1 then steps else MaxSteps + 1
  }

  /**
   * From `env` to `e` the step counter only grows, the output is only appended to,
   * every appended line is tagged, and at most `slack` more lines were appended
   * than dispatching visits were made.
   */
  predicate Grows(env: Env, e: Env, slack: int)
  {
    env.steps <= e.steps &&
    |env.output| <= |e.output| && e.output[..|env.output|] == env.output &&
    (forall k :: |env.output| <= k < |e.output| ==> Tagged(e.output[k])) &&
    |e.output| - |env.output| <= slack + Dispatched(e.steps) - Dispatched(env.steps)
  }

  lemma GrowsTrans(a: Env, b: Env, c: Env, s1: int, s2: int)
    requires Grows(a, b, s1) && Grows(b, c, s2)
    ensures Grows(a, c, s1 + s2)
  {
    assert c.output[..|a.output|] == c.output[..|b.output|][..|a.output|];
    forall k | |a.output| <= k < |c.output| ensures Tagged(c.output[k]) {
      if k < |b.output| {
        assert c.output[k] == c.output[..|b.output|][k];
      }
    }
  }

  /** A thrown statement's exception costs one more line, the error line, besides what the statement wrote. */
  predicate OutcomeGrows(env: Env, o: Outcome)
  {
    Grows(env, o.env, if o.Thrown? then 0 else 1)
  }

  lemma {:induction false} ExecGrows(lines: seq<string>, i: nat, minIndent: int, env: Env)
    requires i <= |lines|
    ensures Grows(env, Exec(lines, i, minIndent, env).env, 0)
    decreases |lines| - i, 2, 0
  {
    hide ExecStmt, Classify, BlockEnd, Exec;
    if i == |lines| {
      ExecAtEnd(lines, minIndent, env);
    } else {
      ExecVisit(lines, i, minIndent, env);
      var env1 := env.(steps := env.steps + 1);
      var t := Trim(lines[i]);
      if env.steps > MaxSteps {
      } else if t == "" || StartsWith(t, "#") {
        ExecGrows(lines, i + 1, minIndent, env1);
        VisitGrows(env, Exec(lines, i + 1, minIndent, env1).env);
      } else if FirstNonSpace(lines[i]) >= minIndent {
        var indent := FirstNonSpace(lines[i]);
        var stmt := Classify(t);
        ExecStmtGrows(lines, i, indent, stmt, env1);
        match ExecStmt(lines, i, indent, stmt, env1)
        case Thrown(e, m) =>
          ErrorLineGrows(env, e, ErrorLine(i, m));
        case Completed(e) =>
          var next := if stmt.ForRange? || stmt.IfCompare? then BlockEnd(lines, i + 1, indent) else i + 1;
          ExecGrows(lines, next, minIndent, e);
          GrowsTrans(env1, e, Exec(lines, next, minIndent, e).env, 1, 0);
          VisitGrows(env, Exec(lines, next, minIndent, e).env);
      }
    }
  }

  /** A dispatching visit pays for one line. */
  lemma VisitGrows(env: Env, e: Env)
    requires env.steps <= MaxSteps && Grows(env.(steps := env.steps + 1), e, 1)
    ensures Grows(env, e, 0)
  {
  }

  /** The per-line `catch` writes its line on the visit that dispatched the statement. */
  lemma ErrorLineGrows(env: Env, e: Env, line: string)
    requires env.steps <= MaxSteps && Grows(env.(steps := env.steps + 1), e, 0)
    requires StartsWith(line, "Error on line ")
    ensures Grows(env, e.(output := e.output + [line]), 0)
  {
    assert (e.output + [line])[..|e.output|] == e.output;
    assert (e.output + [line])[..|env.output|] == e.output[..|env.output|];
  }

  lemma {:induction false} ExecStmtGrows(lines: seq<string>, i: nat, indent: int, stmt: Stmt, env: Env)
    requires i < |lines|
    ensures OutcomeGrows(env, ExecStmt(lines, i, indent, stmt, env))
    decreases |lines| - i, 1, 0
  {
    hide Exec, Loop, Evaluate, EvaluateAll;
    match stmt
    case Print(content) =>
      var o := ExecStmt(lines, i, indent, stmt, env);
      if o.Completed? {
        AppendedGrows(env, o.env.output[|env.output|..]);
      }
    case Echo(text) => AppendedGrows(env, ["> Executing: " + text]);
    case ForRange(count) =>
      if Evaluate(env.vars, count).Ok? {
        LoopGrows(lines, i, indent, 0, LoopBound(Evaluate(env.vars, count).value), env);
      }
    case IfCompare(lhs, op, rhs) =>
      if Evaluate(env.vars, lhs).Ok? && Evaluate(env.vars, rhs).Ok? &&
        Compare(op, Evaluate(env.vars, lhs).value, Evaluate(env.vars, rhs).value)
      {
        ExecGrows(lines, i + 1, indent + 4, env);
      }
    case _ =>
  }

  /** Writing one `"> "` line is within a statement's allowance. */
  lemma AppendedGrows(env: Env, added: seq<string>)
    requires |added| == 1 && StartsWith(added[0], "> ")
    ensures Grows(env, env.(output := env.output + added), 1)
  {
    assert (env.output + added)[..|env.output|] == env.output;
  }

  lemma {:induction false} LoopGrows(lines: seq<string>, i: nat, indent: int, k: nat, count: int, env: Env)
    requires i < |lines|
    ensures OutcomeGrows(env, Loop(lines, i, indent, k, count, env))
    decreases |lines| - i, 0, count - k
  {
    if k < count && env.steps <= MaxSteps {
      ExecGrows(lines, i + 1, indent + 4, env);
      match Exec(lines, i + 1, indent + 4, env)
      case Raised(e, m) =>
      case Returned(e, _) =>
        LoopGrows(lines, i, indent, k + 1, count, e);
        GrowsTrans(env, e, Loop(lines, i, indent, k + 1, count, e).env, 0, if Loop(lines, i, indent, k + 1, count, e).Thrown? then 0 else 1);
    }
  }

  /** Only the budget check at the head of `executeBlock` throws out of it; it has spent more than the budget. */
  lemma {:induction false} ExecRaised(lines: seq<string>, i: nat, minIndent: int, env: Env)
    requires i <= |lines|
    ensures var r := Exec(lines, i, minIndent, env);
      r.Raised? ==> r.msg == StepsError && r.env.steps > MaxSteps + 1
    decreases |lines| - i
  {
    hide ExecStmt, Classify, BlockEnd, Exec;
    if i == |lines| {
      ExecAtEnd(lines, minIndent, env);
    } else {
      ExecVisit(lines, i, minIndent, env);
      ExecGrows(lines, i, minIndent, env);
      var env1 := env.(steps := env.steps + 1);
      var t := Trim(lines[i]);
      if env.steps > MaxSteps {
      } else if t == "" || StartsWith(t, "#") {
        ExecRaised(lines, i + 1, minIndent, env1);
      } else if FirstNonSpace(lines[i]) >= minIndent {
        var indent := FirstNonSpace(lines[i]);
        var stmt := Classify(t);
        match ExecStmt(lines, i, indent, stmt, env1)
        case Thrown(e, m) =>
        case Completed(e) =>
          ExecRaised(lines, if stmt.ForRange? || stmt.IfCompare? then BlockEnd(lines, i + 1, indent) else i + 1, minIndent, e);
      }
    }
  }

  /**
   * `runPythonCode` never throws: its output starts with the start line, ends
   * with the finish line or the one runtime-error line the budget check causes,
   * and every line between is a `"> "` line or a per-line error. The budget
   * bounds the lines between by the number of visits allowed to dispatch.
   */
  lemma RunScriptShape(code: string)
    ensures var out := RunScript(code);
      2 <= |out| <= MaxSteps + 3 && out[0] == StartLine &&
      (out[|out| - 1] == FinishLine || out[|out| - 1] == "Runtime Error: " + StepsError) &&
      (forall k :: 0 < k < |out| - 1 ==> Tagged(out[k]))
  {
    hide Exec, Split;
    var lines := Split(code, '\n');
    ExecGrows(lines, 0, 0, StartEnv);
    ExecRaised(lines, 0, 0, StartEnv);
    var r := Exec(lines, 0, 0, StartEnv);
    var e := r.env;
    assert e.output[..1] == [StartLine];
    var last := if r.Returned? then FinishLine else "Runtime Error: " + r.msg;
    assert RunScript(code) == e.output + [last];
    forall k | 0 < k < |e.output| ensures Tagged((e.output + [last])[k]) {
      assert (e.output + [last])[k] == e.output[k];
    }
  }

  /** No line but the last can read as a runtime error. */
  lemma RuntimeErrorOnlyLast(code: string)
    ensures var out := RunScript(code);
      forall k :: 0 <= k < |out| - 1 ==> !StartsWith(out[k], "Runtime Error: ")
  {
    hide RunScript, Exec, Split;
    RunScriptShape(code);
    var out := RunScript(code);
    forall k | 0 <= k < |out| - 1 ensures !StartsWith(out[k], "Runtime Error: ") {
      if k == 0 {
        assert out[0][0] == '>';
      } else {
        assert Tagged(out[k]);
        assert out[k][0] == '>' || out[k][0] == 'E';
      }
    }
  }
}
