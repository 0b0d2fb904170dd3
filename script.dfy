/**
 * `runPythonCode`: a line interpreter for the small Python subset the code lab
 * accepts. This module states what a run computes, as functions of the lines,
 * the variables, the output so far and the shared step counter; the class in
 * `ScriptRuns` runs the same algorithm imperatively and is proved to agree.
 */
module Script {
  import opened Wrappers
  import opened Text
  import opened Numerals
  import opened JsValues

  /** `MAX_STEPS`: line visits allowed before the budget check throws. */
  const MaxSteps: int := 2000
  const StepsError: string := "Infinite loop detected (max steps reached)"
  const LoopError: string := "Infinite loop detected"
  const StartLine: string := "> Starting execution..."
  const FinishLine: string := "> Execution finished."
  /** Binding a variable named `hasOwnProperty` shadows the method `evaluate` calls on the record. */
  const HasOwnPropertyName: string := "hasOwnProperty"
  const HasOwnPropertyError: string := "variables.hasOwnProperty is not a function"

  /** What a script variable holds: a number or a string. */
  datatype ScriptValue = IntVal(i: int) | StrVal(s: string)

  /** The closure state `executeBlock` shares: `variables`, `output` and `steps`. */
  datatype Env = Env(vars: map<string, ScriptValue>, output: seq<string>, steps: int)

  /** How `executeBlock` ends: it returns the index of the next line, or the budget check throws out of it. */
  datatype Flow = Returned(env: Env, next: int) | Raised(env: Env, msg: string)

  /** How a statement's execution inside the per-line `try` ends. */
  datatype Outcome = Completed(env: Env) | Thrown(env: Env, msg: string)

  // ---- values ----

  /** `${v}`. */
  function Show(v: ScriptValue): string
  {
    match v
    case IntVal(i) => IntToString(i)
    case StrVal(s) => s
  }

  /** `Number(v)`. */
  function ToNum(v: ScriptValue): Num
  {
    match v
    case IntVal(i) => Int(i)
    case StrVal(s) => StringToNumber(s)
  }

  /** JavaScript `a + b`: numeric addition of two numbers, otherwise string concatenation. */
  function Plus(a: ScriptValue, b: ScriptValue): (r: ScriptValue)
    ensures a.IntVal? && b.IntVal? ==> r == IntVal(a.i + b.i)
    ensures !(a.IntVal? && b.IntVal?) ==> r == StrVal(Show(a) + Show(b))
  {
    if a.IntVal? && b.IntVal? then IntVal(a.i + b.i) else StrVal(Show(a) + Show(b))
  }

  /** String `<` in JavaScript: lexicographic by character. */
  predicate StrLess(a: string, b: string)
    decreases |a|
  {
    if |a| == 0 then |b| > 0
    else if |b| == 0 then false
    else if a[0] != b[0] then a[0] < b[0]
    else StrLess(a[1..], b[1..])
  }

  /** JavaScript `a < b`: two strings compare as text, anything else as numbers, where `NaN` compares false. */
  predicate Less(a: ScriptValue, b: ScriptValue)
  {
    if a.StrVal? && b.StrVal? then StrLess(a.s, b.s)
    else ToNum(a).Int? && ToNum(b).Int? && ToNum(a).i < ToNum(b).i
  }

  /** JavaScript `a == b`: same-typed values compare directly, a string against a number as a number. */
  predicate LooseEquals(a: ScriptValue, b: ScriptValue)
  {
    if a.IntVal? && b.IntVal? then a.i == b.i
    else if a.StrVal? && b.StrVal? then a.s == b.s
    else ToNum(a).Int? && ToNum(a) == ToNum(b)
  }

  /** The `if` statement's operator dispatch: anything but `>`, `<`, `==`, `!=` is false. */
  predicate Compare(op: string, lhs: ScriptValue, rhs: ScriptValue)
  {
    if op == ">" then Less(rhs, lhs)
    else if op == "<" then Less(lhs, rhs)
    else if op == "==" then LooseEquals(lhs, rhs)
    else if op == "!=" then !LooseEquals(lhs, rhs)
    else false
  }

  /** `s.slice(1, -1)` on a non-empty string. */
  function Unquote(s: string): string
    requires |s| > 0
  {
    if |s| >= 2 then s[1..|s| - 1] else ""
  }

  predicate Quoted(e: string)
  {
    (StartsWith(e, "\"") && EndsWith(e, "\"")) || (StartsWith(e, "'") && EndsWith(e, "'"))
  }

  /**
   * `evaluate(expr)`: on the trimmed token, a number if `Number` reads one, the
   * inner text if it is quoted, a bound variable's value, or else the token itself.
   * Looking a variable up calls `variables.hasOwnProperty`, which throws once a
   * variable of that name is bound.
   */
  function Evaluate(vars: map<string, ScriptValue>, expr: string): Result<ScriptValue>
  {
    var e := Trim(expr);
    var n := StringToNumber(e);
    if n.Int? then Ok(IntVal(n.i))
    else if Quoted(e) then Ok(StrVal(Unquote(e)))
    else if HasOwnPropertyName in vars then Err(HasOwnPropertyError)
    else if e in vars then Ok(vars[e])
    else Ok(StrVal(e))
  }

  /** `parts.map(p => evaluate(p.trim()))`: every piece's value in order, or the first exception. */
  function EvaluateAll(vars: map<string, ScriptValue>, parts: seq<string>): (r: Result<seq<ScriptValue>>)
    ensures r.Ok? ==> |r.value| == |parts|
    decreases |parts|
  {
    if |parts| == 0 then Ok([])
    else
      match Evaluate(vars, Trim(parts[0]))
      case Err(m) => Err(m)
      case Ok(v) =>
        var rest := EvaluateAll(vars, parts[1..]);
        if rest.Err? then Err(rest.error) else Ok([v] + rest.value)
  }

  /** The pieces are evaluated one by one: all succeed, or the result is the first piece's exception. */
  lemma EvaluateAllSpec(vars: map<string, ScriptValue>, parts: seq<string>)
    ensures var r := EvaluateAll(vars, parts);
      r.Ok? ==> forall k :: 0 <= k < |parts| ==> Evaluate(vars, Trim(parts[k])) == Ok(r.value[k])
    ensures var r := EvaluateAll(vars, parts);
      r.Err? ==> exists k :: (0 <= k < |parts| && Evaluate(vars, Trim(parts[k])) == Err(r.error) &&
        forall j :: 0 <= j < k ==> Evaluate(vars, Trim(parts[j])).Ok?)
  {
    EvaluateAllOk(vars, parts);
    EvaluateAllErr(vars, parts);
  }

  lemma {:induction false} EvaluateAllOk(vars: map<string, ScriptValue>, parts: seq<string>)
    ensures var r := EvaluateAll(vars, parts);
      r.Ok? ==> forall k :: 0 <= k < |parts| ==> Evaluate(vars, Trim(parts[k])) == Ok(r.value[k])
    decreases |parts|
  {
    hide Evaluate, Trim;
    if |parts| > 0 && Evaluate(vars, Trim(parts[0])).Ok? {
      EvaluateAllOk(vars, parts[1..]);
      assert forall k :: 1 <= k < |parts| ==> parts[k] == parts[1..][k - 1];
    }
  }

  lemma {:induction false} EvaluateAllErr(vars: map<string, ScriptValue>, parts: seq<string>)
    ensures var r := EvaluateAll(vars, parts);
      r.Err? ==> exists k :: (0 <= k < |parts| && Evaluate(vars, Trim(parts[k])) == Err(r.error) &&
        forall j :: 0 <= j < k ==> Evaluate(vars, Trim(parts[j])).Ok?)
    decreases |parts|
  {
    hide Evaluate, Trim;
    if |parts| > 0 && Evaluate(vars, Trim(parts[0])).Ok? {
      EvaluateAllErr(vars, parts[1..]);
      var r := EvaluateAll(vars, parts);
      if r.Err? {
        var k :| 0 <= k < |parts[1..]| && Evaluate(vars, Trim(parts[1..][k])) == Err(r.error) &&
          forall j :: 0 <= j < k ==> Evaluate(vars, Trim(parts[1..][j])).Ok?;
        assert parts[k + 1] == parts[1..][k];
        forall j | 0 <= j < k + 1 ensures Evaluate(vars, Trim(parts[j])).Ok? {
          if j > 0 { assert parts[j] == parts[1..][j - 1]; }
        }
      }
    }
  }

  function ShowAll(vs: seq<ScriptValue>): (r: seq<string>)
    ensures |r| == |vs| && forall k :: 0 <= k < |vs| ==> r[k] == Show(vs[k])
  {
    if |vs| == 0 then [] else [Show(vs[0])] + ShowAll(vs[1..])
  }

  // ---- line classification ----

  /** A line's statement, by the first of the source's tests it passes. */
  datatype Stmt =
    | Assign(name: string, expr: string)
    | AddAssign(name: string, expr: string)
    | Print(content: string)
    | Echo(text: string)
    | ForRange(count: string)
    | IfCompare(lhs: string, op: string, rhs: string)
    | Inert

  /** `/^[\w_]+\s*=/`: a word, optional blanks, then `=`. */
  predicate IsAssignment(line: string)
  {
    var w := WordEnd(line, 0);
    w > 0 && OccursAt(line, "=", FirstNonSpaceFrom(line, w))
  }

  /** `/^[\w_]+\s*\+=/`: a word, optional blanks, then `+=`. */
  predicate IsAddAssignment(line: string)
  {
    var w := WordEnd(line, 0);
    w > 0 && OccursAt(line, "+=", FirstNonSpaceFrom(line, w))
  }

  /** `line.slice(6, -1)` after `print(`: everything up to the last character. */
  function PrintContent(line: string): string
    requires |line| >= 6
  {
    if |line| - 1 > 6 then line[6..|line| - 1] else ""
  }

  /**
   * `/range\((.+)\):/`: the leftmost `range(` after which a `):` follows with at
   * least one character between, none of them a line terminator; the group is as
   * long as possible.
   */
  function MatchRangeFrom(line: string, p: nat): (r: Option<string>)
    requires p <= |line|
    ensures r.Some? ==> |r.value| > 0 && Contains(line, "range(" + r.value + "):")
    decreases |line| - p
  {
    if p + 6 > |line| then None
    else if OccursAt(line, "range(", p) then
      var q := LastOccurrenceIn(line, "):", p + 7, DotEnd(line, p + 6));
      if q != -1 then
        assert OccursAt(line, "range(" + line[p + 6..q] + "):", p) by {
          assert line[p..q + 2] == line[p..p + 6] + line[p + 6..q] + line[q..q + 2];
        }
        Some(line[p + 6..q])
      else MatchRangeFrom(line, p + 1)
    else MatchRangeFrom(line, p + 1)
  }

  function MatchRange(line: string): Option<string>
  {
    MatchRangeFrom(line, 0)
  }

  /** The operator characters `[><=!]`. */
  predicate IsOpChar(c: char)
  {
    c == '>' || c == '<' || c == '=' || c == '!'
  }

  function OpEnd(s: string, i: nat): (r: nat)
    requires i <= |s|
    ensures i <= r <= |s|
    ensures forall k :: i <= k < r ==> IsOpChar(s[k])
    ensures r < |s| ==> !IsOpChar(s[r])
    decreases |s| - i
  {
    if i == |s| || !IsOpChar(s[i]) then i else OpEnd(s, i + 1)
  }

  /** The three groups of the `if` pattern. */
  datatype IfParts = IfParts(lhs: string, op: string, rhs: string)

  /**
   * `\s*(.+):` after an operator ending at `lo`, with the blanks cut back from
   * `sp` one at a time: the first cut after which a `:` follows at least one
   * `.` character, taking the last such `:` (a greedy `.+`).
   */
  function SpaceThenRest(line: string, lo: nat, sp: nat): (r: Option<(nat, nat)>)
    requires lo <= sp <= |line|
    ensures r.Some? ==> lo <= r.value.0 < r.value.1 < |line| && line[r.value.1] == ':'
    decreases sp - lo
  {
    var q := LastOccurrenceIn(line, ":", sp + 1, DotEnd(line, sp));
    if q != -1 then Some((sp, q))
    else if sp == lo then None
    else SpaceThenRest(line, lo, sp - 1)
  }

  /** The greedy `[><=!]+` from `d`, cut back one character at a time until the rest matches. */
  function OpThenRest(line: string, d: nat, oe: nat): (r: Option<(nat, nat, nat)>)
    requires d < oe <= |line|
    ensures r.Some? ==> d < r.value.0 <= oe && r.value.0 <= r.value.1 < r.value.2 < |line|
    decreases oe - d
  {
    match SpaceThenRest(line, oe, FirstNonSpaceFrom(line, oe))
    case Some((sp, q)) => Some((oe, sp, q))
    case None => if oe - 1 == d then None else OpThenRest(line, d, oe - 1)
  }

  /**
   * `/if\s+(\w+)\s*([><=!]+)\s*(.+):/` tried at position `p`. The blanks and the
   * name are taken whole (a shorter run leaves a character the next part cannot
   * start with); the operator, the blanks after it and the rest backtrack.
   */
  function MatchIfAt(line: string, p: nat): (r: Option<IfParts>)
    ensures r.Some? ==> |r.value.lhs| > 0 && (forall k :: 0 <= k < |r.value.lhs| ==> IsWordChar(r.value.lhs[k]))
    ensures r.Some? ==> |r.value.op| > 0 && (forall k :: 0 <= k < |r.value.op| ==> IsOpChar(r.value.op[k]))
    ensures r.Some? ==> |r.value.rhs| > 0
  {
    if !OccursAt(line, "if", p) then None
    else
      var b := FirstNonSpaceFrom(line, p + 2);
      var c := WordEnd(line, b);
      var d := FirstNonSpaceFrom(line, c);
      var e := OpEnd(line, d);
      if b == p + 2 || c == b || e == d then None
      else
        match OpThenRest(line, d, e)
        case None => None
        case Some((oe, sp, q)) => Some(IfParts(line[b..c], line[d..oe], line[sp..q]))
  }

  /** The leftmost position from `p` on where the `if` pattern matches. */
  function MatchIfFrom(line: string, p: nat): (r: Option<IfParts>)
    requires p <= |line|
    decreases |line| - p
  {
    match MatchIfAt(line, p)
    case Some(m) => Some(m)
    case None => if p == |line| then None else MatchIfFrom(line, p + 1)
  }

  function MatchIf(line: string): Option<IfParts>
  {
    MatchIfFrom(line, 0)
  }

  /** The source's `if`/`else if` chain over a trimmed line: the first test it passes decides. */
  function Classify(line: string): Stmt
  {
    if IsAssignment(line) then
      Assign(Trim(SplitPiece(line, "=", 0)), Trim(SplitPiece(line, "=", 1)))
    else if IsAddAssignment(line) then
      AddAssign(Trim(SplitPiece(line, "+=", 0)), Trim(SplitPiece(line, "+=", 1)))
    else if StartsWith(line, "print(") then Print(PrintContent(line))
    else if StartsWith(line, "time.sleep") || StartsWith(line, "avatar.move") then Echo(line)
    else if StartsWith(line, "for ") then
      match MatchRange(line)
      case Some(g) => ForRange(g)
      case None => Inert
    else if StartsWith(line, "if ") then
      match MatchIf(line)
      case Some(m) => IfCompare(m.lhs, m.op, m.rhs)
      case None => Inert
    else Inert
  }

  // ---- execution ----

  /** The line the per-line `catch` writes; lines are numbered from 1. */
  function ErrorLine(i: int, msg: string): string
  {
    "Error on line " + IntToString(i + 1) + ": " + msg
  }

  /** A line that ends the block under a header indented by `indent`: not blank, and indented at most as far. */
  predicate ClosesBlock(line: string, indent: int)
  {
    Trim(line) != "" && FirstNonSpace(line) <= indent
  }

  /** The scan for a header's block end: the first later line that closes the block, or the end of the script. */
  function BlockEnd(lines: seq<string>, j: nat, indent: int): (r: nat)
    requires j <= |lines|
    ensures j <= r <= |lines|
    ensures forall k :: j <= k < r ==> !ClosesBlock(lines[k], indent)
    ensures r < |lines| ==> ClosesBlock(lines[r], indent)
    decreases |lines| - j
  {
    if j == |lines| then j
    else if ClosesBlock(lines[j], indent) then j
    else BlockEnd(lines, j + 1, indent)
  }

  /** `Number(v)` as a loop bound: `k < NaN` never holds, like `k < 0`. */
  function LoopBound(v: ScriptValue): int
  {
    var n := ToNum(v);
    if n.Int? then n.i else 0
  }

  /**
   * `executeBlock(i, minIndent)`: every visit first spends a step (and throws once
   * the budget is spent), blank and comment lines are skipped, a line indented
   * less than `minIndent` ends the block, and an exception from the statement is
   * written as an error line and ends the block.
   */
  function Exec(lines: seq<string>, i: nat, minIndent: int, env: Env): Flow
    requires i <= |lines|
    decreases |lines| - i, 2, 0
  {
    if i == |lines| then Returned(env, i)
    else if env.steps > MaxSteps then Raised(env.(steps := env.steps + 1), StepsError)
    else
      var env1 := env.(steps := env.steps + 1);
      var t := Trim(lines[i]);
      if t == "" || StartsWith(t, "#") then Exec(lines, i + 1, minIndent, env1)
      else
        var indent := FirstNonSpace(lines[i]);
        if indent < minIndent then Returned(env1, i)
        else
          var stmt := Classify(t);
          match ExecStmt(lines, i, indent, stmt, env1)
          case Thrown(e, m) => Returned(e.(output := e.output + [ErrorLine(i, m)]), |lines|)
          case Completed(e) =>
            Exec(lines, if stmt.ForRange? || stmt.IfCompare? then BlockEnd(lines, i + 1, indent) else i + 1, minIndent, e)
  }

  /** Past the last line `Exec` returns at once. */
  lemma ExecAtEnd(lines: seq<string>, minIndent: int, env: Env)
    ensures Exec(lines, |lines|, minIndent, env) == Returned(env, |lines|)
  {
  }

  /** What `Exec` does at a line it visits, by case: the budget check, a skipped line, the block's end, a statement. */
  lemma ExecVisit(lines: seq<string>, i: nat, minIndent: int, env: Env)
    requires i < |lines|
    ensures env.steps > MaxSteps ==> Exec(lines, i, minIndent, env) == Raised(env.(steps := env.steps + 1), StepsError)
    ensures var env1 := env.(steps := env.steps + 1); var t := Trim(lines[i]);
      env.steps <= MaxSteps && (t == "" || StartsWith(t, "#")) ==>
        Exec(lines, i, minIndent, env) == Exec(lines, i + 1, minIndent, env1)
    ensures var env1 := env.(steps := env.steps + 1); var t := Trim(lines[i]);
      env.steps <= MaxSteps && !(t == "" || StartsWith(t, "#")) && FirstNonSpace(lines[i]) < minIndent ==>
        Exec(lines, i, minIndent, env) == Returned(env1, i)
    ensures var env1 := env.(steps := env.steps + 1); var t := Trim(lines[i]); var indent := FirstNonSpace(lines[i]);
      env.steps <= MaxSteps && !(t == "" || StartsWith(t, "#")) && indent >= minIndent ==>
        Exec(lines, i, minIndent, env) ==
          match ExecStmt(lines, i, indent, Classify(t), env1)
          case Thrown(e, m) => Returned(e.(output := e.output + [ErrorLine(i, m)]), |lines|)
          case Completed(e) =>
            Exec(lines, if Classify(t).ForRange? || Classify(t).IfCompare? then BlockEnd(lines, i + 1, indent) else i + 1, minIndent, e)
  {
    hide ExecStmt, Classify, BlockEnd, Trim, StartsWith, FirstNonSpace;
  }

  /** The body of the per-line `try` for the statement on line `i`, indented by `indent`. */
  function ExecStmt(lines: seq<string>, i: nat, indent: int, stmt: Stmt, env: Env): Outcome
    requires i < |lines|
    decreases |lines| - i, 1, 0
  {
    match stmt
    case Assign(name, expr) =>
      (match Evaluate(env.vars, expr)
       case Err(m) => Thrown(env, m)
       case Ok(v) => Completed(env.(vars := SetProperty(env.vars, name, v))))
    case AddAssign(name, expr) =>
      (match Evaluate(env.vars, expr)
       case Err(m) => Thrown(env, m)
       case Ok(v) =>
         var current := if name in env.vars then env.vars[name] else IntVal(0);
         Completed(env.(vars := SetProperty(env.vars, name, Plus(current, v)))))
    case Print(content) =>
      if Contains(content, ",") then
        (match EvaluateAll(env.vars, Split(content, ','))
         case Err(m) => Thrown(env, m)
         case Ok(vs) => Completed(env.(output := env.output + ["> " + Join(ShowAll(vs), " ")])))
      else
        (match Evaluate(env.vars, content)
         case Err(m) => Thrown(env, m)
         case Ok(v) => Completed(env.(output := env.output + ["> " + Show(v)])))
    case Echo(text) => Completed(env.(output := env.output + ["> Executing: " + text]))
    case ForRange(count) =>
      (match Evaluate(env.vars, count)
       case Err(m) => Thrown(env, m)
       case Ok(v) => Loop(lines, i, indent, 0, LoopBound(v), env))
    case IfCompare(lhs, op, rhs) =>
      (match Evaluate(env.vars, lhs)
       case Err(m) => Thrown(env, m)
       case Ok(l) =>
         (match Evaluate(env.vars, rhs)
          case Err(m) => Thrown(env, m)
          case Ok(r) =>
            if Compare(op, l, r) then
              (match Exec(lines, i + 1, indent + 4, env)
               case Raised(e, m) => Thrown(e, m)
               case Returned(e, _) => Completed(e))
            else Completed(env)))
    case Inert => Completed(env)
  }

  /** `for (let k = 0; k < count; k++)` over the body of the header on line `i`, checking the budget before each pass. */
  function Loop(lines: seq<string>, i: nat, indent: int, k: nat, count: int, env: Env): Outcome
    requires i < |lines|
    decreases |lines| - i, 0, count - k
  {
    if k >= count then Completed(env)
    else if env.steps > MaxSteps then Thrown(env, LoopError)
    else
      match Exec(lines, i + 1, indent + 4, env)
      case Raised(e, m) => Thrown(e, m)
      case Returned(e, _) => Loop(lines, i, indent, k + 1, count, e)
  }

  /** The empty variables and step counter a run starts from, with the start line written. */
  const StartEnv: Env := Env(map[], [StartLine], 0)

  /** `runPythonCode(code)`: the output lines. */
  function RunScript(code: string): seq<string>
  {
    match Exec(Split(code, '\n'), 0, 0, StartEnv)
    case Returned(e, _) => e.output + [FinishLine]
    case Raised(e, m) => e.output + ["Runtime Error: " + m]
  }
}
