/**
 * `runPythonCode` as the source runs it: the closure's `variables`, `output`
 * and `steps` are fields updated in place, `executeBlock` is a recursive method
 * with a `while` loop over line indices, and a `for` header runs its body in a
 * counted loop. Each method is proved to compute what the functions of
 * `Script` say; an exception propagating out of `executeBlock` is its `raised`
 * result.
 */
module ScriptRuns {
  import opened Wrappers
  import opened Text
  import opened JsValues
  import opened Script

  class ScriptRun {
    const lines: seq<string>
    var variables: map<string, ScriptValue>
    var output: seq<string>
    var steps: int

    /** The closure state as one value. */
    function State(): Env
      reads this
    {
      Env(variables, output, steps)
    }

    /** `code.split('\n')`, with no variables, no output and no steps spent. */
    constructor(code: string)
      ensures lines == Split(code, '\n')
      ensures State() == Env(map[], [], 0)
    {
      lines := Split(code, '\n');
      variables := map[];
      output := [];
      steps := 0;
    }

    /** The scan for the end of the block under a header indented by `indent`. */
    method ScanBlockEnd(blockStart: nat, indent: int) returns (j: nat)
      requires blockStart <= |lines|
      ensures j == BlockEnd(lines, blockStart, indent)
    {
      j := blockStart;
      while j < |lines|
        invariant blockStart <= j <= |lines|
        invariant BlockEnd(lines, j, indent) == BlockEnd(lines, blockStart, indent)
        decreases |lines| - j
      {
        if Trim(lines[j]) != "" && FirstNonSpace(lines[j]) <= indent {
          break;
        }
        j := j + 1;
      }
    }

    /**
     * `executeBlock(startIdx, minIndent)`: the next line's index when it returns,
     * or the budget message when the check at its head throws.
     */
    method ExecuteBlock(startIdx: nat, minIndent: int) returns (next: int, raised: Option<string>)
      requires startIdx <= |lines|
      modifies this
      decreases |lines| - startIdx, 2, 0
      ensures match Exec(lines, startIdx, minIndent, old(State()))
        case Returned(e, n) => raised.None? && next == n && State() == e
        case Raised(e, m) => raised == Some(m) && State() == e
    {
      hide Exec, ExecStmt, Classify, Trim, FirstNonSpace, BlockEnd;
      var i := startIdx;
      while i < |lines|
        invariant startIdx <= i <= |lines|
        invariant Exec(lines, i, minIndent, State()) == Exec(lines, startIdx, minIndent, old(State()))
        decreases |lines| - i
      {
        ExecVisit(lines, i, minIndent, State());
        if steps > MaxSteps {
          steps := steps + 1;
          return i, Some(StepsError);
        }
        steps := steps + 1;
        var rawLine := lines[i];
        if Trim(rawLine) == "" || StartsWith(Trim(rawLine), "#") {
          i := i + 1;
          continue;
        }
        var indent := FirstNonSpace(rawLine);
        if indent < minIndent {
          return i, None;
        }
        var line := Trim(rawLine);
        var caught, resume := ExecuteStatement(i, indent, Classify(line));
        if caught.Some? {
          output := output + [ErrorLine(i, caught.value)];
          return |lines|, None;
        }
        i := resume;
      }
      ExecAtEnd(lines, minIndent, State());
      return i, None;
    }

    /**
     * The per-line `try` for the statement on line `i`: the exception it catches,
     * if any, and otherwise the line to continue at (the block end after a
     * `for` or `if` header, the next line after anything else).
     */
    method ExecuteStatement(i: nat, indent: int, stmt: Stmt) returns (caught: Option<string>, resume: nat)
      requires i < |lines|
      modifies this
      decreases |lines| - i, 1, 0
      ensures i < resume <= |lines|
      ensures match ExecStmt(lines, i, indent, stmt, old(State()))
        case Completed(e) => caught.None? && State() == e
        case Thrown(e, m) => caught == Some(m) && State() == e
      ensures caught.None? ==> resume == if stmt.ForRange? || stmt.IfCompare? then BlockEnd(lines, i + 1, indent) else i + 1
    {
      hide Evaluate, EvaluateAll, Loop, Exec, BlockEnd, Compare;
      caught, resume := None, i + 1;
      match stmt
      case Assign(name, expr) =>
        var val := Evaluate(variables, expr);
        if val.Err? {
          return Some(val.error), resume;
        }
        variables := SetProperty(variables, name, val.value);
      case AddAssign(name, expr) =>
        var val := Evaluate(variables, expr);
        if val.Err? {
          return Some(val.error), resume;
        }
        // The `=== undefined` test and the first write: an unbound name starts from 0.
        var current := if name in variables then variables[name] else IntVal(0);
        variables := SetProperty(variables, name, Plus(current, val.value));
      case Print(content) =>
        if Contains(content, ",") {
          var parts := EvaluateAll(variables, Split(content, ','));
          if parts.Err? {
            return Some(parts.error), resume;
          }
          output := output + ["> " + Join(ShowAll(parts.value), " ")];
        } else {
          var val := Evaluate(variables, content);
          if val.Err? {
            return Some(val.error), resume;
          }
          output := output + ["> " + Show(val.value)];
        }
      case Echo(text) =>
        output := output + ["> Executing: " + text];
      case ForRange(countExpr) =>
        var val := Evaluate(variables, countExpr);
        if val.Err? {
          return Some(val.error), resume;
        }
        caught := RunLoop(i, indent, LoopBound(val.value));
        resume := ScanBlockEnd(i + 1, indent);
      case IfCompare(lhsExpr, op, rhsExpr) =>
        var lhs := Evaluate(variables, lhsExpr);
        if lhs.Err? {
          return Some(lhs.error), resume;
        }
        var rhs := Evaluate(variables, rhsExpr);
        if rhs.Err? {
          return Some(rhs.error), resume;
        }
        resume := ScanBlockEnd(i + 1, indent);
        if Compare(op, lhs.value, rhs.value) {
          var _, raised := ExecuteBlock(i + 1, indent + 4);
          caught := raised;
        }
      case Inert =>
    }

    /** `for (let k = 0; k < count; k++)`: the budget check, then the body one level deeper. */
    method RunLoop(i: nat, indent: int, count: int) returns (caught: Option<string>)
      requires i < |lines|
      modifies this
      decreases |lines| - i, 0, 0
      ensures match Loop(lines, i, indent, 0, count, old(State()))
        case Completed(e) => caught.None? && State() == e
        case Thrown(e, m) => caught == Some(m) && State() == e
    {
      var k: nat := 0;
      while k < count
        invariant Loop(lines, i, indent, k, count, State()) == Loop(lines, i, indent, 0, count, old(State()))
        decreases count - k
      {
        if steps > MaxSteps {
          return Some(LoopError);
        }
        var _, raised := ExecuteBlock(i + 1, indent + 4);
        if raised.Some? {
          return raised;
        }
        k := k + 1;
      }
      return None;
    }
  }

  /** `runPythonCode(code)`: the output of a run, which always ends in a finish or a runtime-error line. */
  method RunPythonCode(code: string) returns (output: seq<string>)
    ensures output == RunScript(code)
  {
    hide Exec;
    var run := new ScriptRun(code);
    run.output := run.output + [StartLine];
    assert run.State() == StartEnv;
    var _, raised := run.ExecuteBlock(0, 0);
    if raised.None? {
      run.output := run.output + [FinishLine];
    } else {
      run.output := run.output + ["Runtime Error: " + raised.value];
    }
    output := run.output;
  }
}
