/**
 * The stepping semantics of the block engine, as pure functions on a machine
 * (run state plus frame stack). `LogicEngine` is proved to follow `Step`.
 */
module LogicSpec {
  import opened Wrappers
  import opened JsValues
  import opened Blocks

  /** The test a `repeat_until` frame re-evaluates after each pass of its body. */
  datatype Condition = Condition(varName: string, op: Value, val: Num)

  /** A stack frame: the children being run, the index of the next one, and the loop bookkeeping. */
  datatype Frame = Frame(
    blockIndex: nat,
    children: seq<Block>,
    loopCounter: Option<int>,
    maxLoops: Option<int>,
    untilCondition: Option<Condition>)

  datatype Machine = Machine(state: RuntimeState, stack: seq<Frame>)

  function RootFrame(program: seq<Block>): Frame
  {
    Frame(0, program, None, None, None)
  }

  /** Empty variables and console, no current block, all flags false, no error. */
  const InitialState: RuntimeState := RuntimeState(map[], [], None, false, false, None)

  /** The machine the constructor and `reset` produce. */
  function Initial(program: seq<Block>): Machine
  {
    Machine(InitialState, [RootFrame(program)])
  }

  // ---- evaluateCondition ----

  /**
   * The properties every object inherits from `Object.prototype`. Read as an
   * unbound variable, such a name gives the inherited method (or, for
   * `__proto__`, the prototype object) instead of `undefined`.
   */
  const InheritedNames: set<string> := {
    "constructor", "hasOwnProperty", "isPrototypeOf", "propertyIsEnumerable",
    "toLocaleString", "toString", "valueOf", "__proto__",
    "__defineGetter__", "__defineSetter__", "__lookupGetter__", "__lookupSetter__"}

  /**
   * `variables[name] || 0`: unset, zero and `NaN` all read as 0, except that an
   * unbound inherited name reads as its function or object, which every
   * comparison with a number converts to `NaN`.
   */
  function ConditionLhs(vars: map<string, Num>, name: string): Num
  {
    if name in vars then (if vars[name].Int? then vars[name] else Int(0))
    else if name in InheritedNames then NaN
    else Int(0)
  }

  /** The four recognised operators; a comparison with `NaN` on either side is false, except `!=`. */
  function Compare(op: Value, lhs: Num, rhs: Num): bool
  {
    if op == Str(">") then lhs.Int? && rhs.Int? && lhs.i > rhs.i
    else if op == Str("<") then lhs.Int? && rhs.Int? && lhs.i < rhs.i
    else if op == Str("==") then lhs.Int? && rhs.Int? && lhs.i == rhs.i
    else if op == Str("!=") then !(lhs.Int? && rhs.Int? && lhs.i == rhs.i)
    else false
  }

  function EvaluateCondition(vars: map<string, Num>, c: Condition): bool
  {
    Compare(c.op, ConditionLhs(vars, c.varName), c.val)
  }

  predicate KnownOperator(op: Value)
  {
    op == Str(">") || op == Str("<") || op == Str("==") || op == Str("!=")
  }

  /**
   * An unset variable reads as 0, but an unset inherited name satisfies only
   * `!=`; a bound `NaN` reads as 0; an unknown operator yields false, `!=` is
   * the negation of `==`, and on integers each operator is the integer comparison.
   */
  lemma EvaluateConditionSpec(vars: map<string, Num>, c: Condition)
    ensures c.varName !in vars && c.varName !in InheritedNames ==>
      EvaluateCondition(vars, c) == EvaluateCondition(vars[c.varName := Int(0)], c)
    ensures c.varName !in vars && c.varName in InheritedNames ==>
      (EvaluateCondition(vars, c) <==> c.op == Str("!="))
    ensures c.varName in vars && vars[c.varName].NaN? ==>
      EvaluateCondition(vars, c) == EvaluateCondition(vars[c.varName := Int(0)], c)
    ensures !KnownOperator(c.op) ==> !EvaluateCondition(vars, c)
    ensures c.op == Str("!=") ==> EvaluateCondition(vars, c) == !EvaluateCondition(vars, c.(op := Str("==")))
    ensures c.val.Int? && c.varName in vars && vars[c.varName].Int? ==>
      (c.op == Str(">") ==> (EvaluateCondition(vars, c) <==> vars[c.varName].i > c.val.i)) &&
      (c.op == Str("<") ==> (EvaluateCondition(vars, c) <==> vars[c.varName].i < c.val.i)) &&
      (c.op == Str("==") ==> (EvaluateCondition(vars, c) <==> vars[c.varName].i == c.val.i))
  {
  }

  // ---- executeBlockLogic ----

  /** What running one block does: a new state and at most one pushed frame, or a thrown message. */
  datatype Effect = Done(state: RuntimeState, pushed: seq<Frame>) | Threw(message: string)

  /**
   * `hasOwnProperty` is looked up on the variables object itself, so once a
   * variable of that name is bound, `print` calls a number and throws.
   */
  const HasOwnPropertyName: string := "hasOwnProperty"
  const HasOwnPropertyError: string := "this.state.variables.hasOwnProperty is not a function"

  /** `Number(times) || 1`: `NaN` and 0 fall back to 1. */
  function LoopCount(times: Num): int
  {
    if times.NaN? || times.i == 0 then 1 else times.i
  }

  function Print(st: RuntimeState, line: string): RuntimeState
  {
    st.(consoleOutput := st.consoleOutput + [line])
  }

  function PrintLine(vars: map<string, Num>, msg: Value): string
  {
    if ToStr(msg) in vars then "> " + NumToString(vars[ToStr(msg)]) else "> " + ToStr(msg)
  }

  function ExecuteBlockLogic(b: Block, st: RuntimeState): Effect
  {
    var vars := st.variables;
    match b.blockType
    case "start" => Done(Print(st, "> Program Started"), [])
    case "print" =>
      if HasOwnPropertyName in vars then Threw(HasOwnPropertyError)
      else Done(Print(st, PrintLine(vars, Param(b, "message"))), [])
    case "set_var" =>
      Done(st.(variables := SetProperty(vars, ToStr(Param(b, "name")), ToNumber(Param(b, "value")))), [])
    case "change_var" =>
      var key := ToStr(Param(b, "name"));
      var current := if key in vars then vars[key] else Int(0);
      Done(st.(variables := SetProperty(vars, key, AddNum(current, ToNumber(Param(b, "value"))))), [])
    case "wait" => Done(Print(st, "> Waiting " + ToStr(Param(b, "seconds")) + "s..."), [])
    case "move" => Done(Print(st, "> Avatar moving " + ToStr(Param(b, "direction"))), [])
    case "repeat" =>
      if HasNonEmptyChildren(b) then
        Done(st, [Frame(0, b.children, Some(0), Some(LoopCount(ToNumber(Param(b, "times")))), None)])
      else Done(st, [])
    case "repeat_until" =>
      var cond := Condition(ToStr(Param(b, "condition_var")), Param(b, "operator"), ToNumber(Param(b, "value")));
      if HasNonEmptyChildren(b) && !EvaluateCondition(vars, cond) then
        Done(st, [Frame(0, b.children, None, None, Some(cond))])
      else Done(st, [])
    case "if" =>
      var cond := Condition(ToStr(Param(b, "condition_var")), Param(b, "operator"), ToNumber(Param(b, "value")));
      if HasNonEmptyChildren(b) && EvaluateCondition(vars, cond) then
        Done(st, [Frame(0, b.children, None, None, None)])
      else Done(st, [])
    case _ => Done(st, [])
  }

  /** A frame pushed by `repeat`, `repeat_until` or `if`: index 0 over a non-empty body. */
  predicate PushedFrame(f: Frame)
  {
    f.blockIndex == 0 && |f.children| > 0 &&
    ((f.loopCounter.Some? && f.maxLoops.Some? && f.untilCondition.None?) ||
     (f.loopCounter.None? && f.maxLoops.None?))
  }

  /** One block adds at most one console line. */
  lemma ExecuteBlockLogicConsole(b: Block, st: RuntimeState)
    ensures ExecuteBlockLogic(b, st).Done? ==>
      var out := ExecuteBlockLogic(b, st).state.consoleOutput;
      out == st.consoleOutput || exists line :: out == st.consoleOutput + [line]
  {
    var e := ExecuteBlockLogic(b, st);
    if e.Done? && e.state.consoleOutput != st.consoleOutput {
      var line := e.state.consoleOutput[|st.consoleOutput|];
      assert e.state.consoleOutput == st.consoleOutput + [line];
    }
  }

  /** One block changes only the variables and the console: none of the run flags, the current block or the error. */
  lemma ExecuteBlockLogicFlags(b: Block, st: RuntimeState)
    ensures ExecuteBlockLogic(b, st).Done? ==>
      var e := ExecuteBlockLogic(b, st);
      e.state.currentBlockId == st.currentBlockId && e.state.isRunning == st.isRunning &&
      e.state.isFinished == st.isFinished && e.state.error == st.error
  {
    match b.blockType
    case "start" =>
    case "print" =>
    case "set_var" =>
    case "change_var" =>
    case "wait" =>
    case "move" =>
    case "repeat" =>
    case "repeat_until" =>
    case "if" =>
    case _ =>
  }

  /**
   * A block pushes at most one frame, always a well-formed one over its own
   * children, and only the compound types with a non-empty body push.
   */
  lemma ExecuteBlockLogicFrames(b: Block, st: RuntimeState)
    ensures ExecuteBlockLogic(b, st).Done? ==>
      var e := ExecuteBlockLogic(b, st);
      |e.pushed| <= 1 && (forall f :: f in e.pushed ==> PushedFrame(f) && f.children == b.children) &&
      (|e.pushed| == 1 ==> HasNonEmptyChildren(b) && b.blockType in {"repeat", "repeat_until", "if"})
  {
  }

  /** Only `print` throws, and only once `hasOwnProperty` is bound. */
  lemma ExecuteBlockLogicThrows(b: Block, st: RuntimeState)
    ensures ExecuteBlockLogic(b, st).Threw? <==> b.blockType == "print" && HasOwnPropertyName in st.variables
  {
  }

  /** `print` shows a bound variable's value and otherwise the message text itself. */
  lemma PrintSpec(b: Block, st: RuntimeState)
    requires b.blockType == "print" && HasOwnPropertyName !in st.variables
    ensures var msg := Param(b, "message");
      ExecuteBlockLogic(b, st) == Done(st.(consoleOutput := st.consoleOutput +
        [if ToStr(msg) in st.variables then "> " + NumToString(st.variables[ToStr(msg)]) else "> " + ToStr(msg)]), [])
  {
  }

  /** `change_var` on an unset name starts from 0. */
  lemma ChangeVarFromZero(b: Block, st: RuntimeState)
    requires b.blockType == "change_var" && ToStr(Param(b, "name")) !in st.variables
    ensures ExecuteBlockLogic(b, st).Done?
    ensures ExecuteBlockLogic(b, st).state.variables ==
      SetProperty(st.variables, ToStr(Param(b, "name")), AddNum(Int(0), ToNumber(Param(b, "value"))))
  {
  }

  /**
   * `set_var` and `change_var` on `__proto__` leave the variables as they
   * were: the prototype setter ignores the number (or the `"[object Object]"`
   * text `+=` makes), so the name never becomes an own property.
   */
  lemma ProtoAssignIgnored(b: Block, st: RuntimeState)
    requires b.blockType == "set_var" || b.blockType == "change_var"
    requires ToStr(Param(b, "name")) == ProtoName
    ensures ExecuteBlockLogic(b, st) == Done(st, [])
  {
  }

  // ---- step ----

  /** Outcome of the unwinding loop: a frame with a block to run, the stack emptied, or no frame to begin with. */
  datatype Unwound = Ready(stack: seq<Frame>) | Emptied | NoFrame

  /** `loopCounter++` on a counted frame. */
  function Counted(f: Frame): Frame
  {
    if f.maxLoops.Some? && f.loopCounter.Some? then f.(loopCounter := Some(f.loopCounter.value + 1)) else f
  }

  /** The `while` loop of `step`: restart a counted or until frame, or pop and look at the one below. */
  function Unwind(vars: map<string, Num>, stack: seq<Frame>): Unwound
    decreases |stack|
  {
    if |stack| == 0 then NoFrame
    else
      var top := stack[|stack| - 1];
      var below := stack[..|stack| - 1];
      if top.blockIndex < |top.children| then Ready(stack)
      else
        var f := Counted(top);
        if f.maxLoops.Some? && f.loopCounter.Some? && f.loopCounter.value < f.maxLoops.value then
          Ready(below + [f.(blockIndex := 0)])
        else if f.untilCondition.Some? && !EvaluateCondition(vars, f.untilCondition.value) then
          Ready(below + [f.(blockIndex := 0)])
        else if |below| == 0 then Emptied
        else Unwind(vars, below)
  }

  /** `this.state.isFinished || this.state.error`: an error message is truthy when non-empty. */
  predicate Halted(st: RuntimeState)
  {
    st.isFinished || (st.error.Some? && st.error.value != "")
  }

  /** Every frame's index is within its children; frames above the root have non-empty bodies. */
  predicate ValidFrame(f: Frame)
  {
    f.blockIndex <= |f.children|
  }

  predicate ValidStack(stack: seq<Frame>)
  {
    (forall k :: 0 <= k < |stack| ==> ValidFrame(stack[k])) &&
    (forall k :: 0 < k < |stack| ==> |stack[k].children| > 0) &&
    (|stack| > 0 ==> stack[0].loopCounter.None? && stack[0].maxLoops.None? && stack[0].untilCondition.None?)
  }

  /** The engine invariant: a well-formed stack, empty exactly when the run has finished. */
  predicate Valid(m: Machine)
  {
    ValidStack(m.stack) && (m.state.isFinished <==> |m.stack| == 0)
  }

  /** Replacing the top frame of a stack above the root by a frame with a non-empty body keeps it well formed. */
  lemma ReplaceTopValid(stack: seq<Frame>, g: Frame)
    requires ValidStack(stack) && |stack| > 1 && ValidFrame(g) && |g.children| > 0
    ensures ValidStack(stack[..|stack| - 1] + [g])
  {
    var s := stack[..|stack| - 1] + [g];
    forall k | 0 <= k < |s| - 1 ensures s[k] == stack[k] {
    }
  }

  /** A loop frame restarted at index 0 leaves a well-formed stack whose top has a block to run. */
  lemma RestartReady(stack: seq<Frame>, g: Frame)
    requires ValidStack(stack) && |stack| > 1 && g.blockIndex == 0 && g.children == stack[|stack| - 1].children
    ensures var s := stack[..|stack| - 1] + [g];
      ValidStack(s) && s[|s| - 1].blockIndex < |s[|s| - 1].children|
  {
    ReplaceTopValid(stack, g);
  }

  /** Popping the top frame keeps a stack well formed. */
  lemma PopValid(stack: seq<Frame>)
    requires ValidStack(stack) && |stack| > 0
    ensures ValidStack(stack[..|stack| - 1])
  {
    var below := stack[..|stack| - 1];
    forall k | 0 <= k < |below| ensures below[k] == stack[k] {
    }
  }

  /** What the unwinding hands to `step()` is a well-formed stack whose top frame has a block to run. */
  lemma {:induction false} UnwindReady(vars: map<string, Num>, stack: seq<Frame>)
    requires ValidStack(stack)
    ensures Unwind(vars, stack).Ready? ==>
      var s := Unwind(vars, stack).stack;
      ValidStack(s) && |s| > 0 && s[|s| - 1].blockIndex < |s[|s| - 1].children|
    decreases |stack|
  {
    hide EvaluateCondition;
    if |stack| > 0 {
      var top := stack[|stack| - 1];
      var below := stack[..|stack| - 1];
      if top.blockIndex >= |top.children| {
        var f := Counted(top);
        if (f.maxLoops.Some? && f.loopCounter.Some? && f.loopCounter.value < f.maxLoops.value) ||
           (f.untilCondition.Some? && !EvaluateCondition(vars, f.untilCondition.value)) {
          assert Unwind(vars, stack) == Ready(below + [f.(blockIndex := 0)]);
          RestartReady(stack, f.(blockIndex := 0));
        } else if |below| > 0 {
          assert Unwind(vars, stack) == Unwind(vars, below);
          PopValid(stack);
          UnwindReady(vars, below);
        }
      }
    }
  }

  /** `s` agrees with `stack` below its top frame, and its top frame has the children of the frame at that height. */
  predicate KeepsBelow(s: seq<Frame>, stack: seq<Frame>)
  {
    0 < |s| <= |stack| && s[..|s| - 1] == stack[..|s| - 1] && s[|s| - 1].children == stack[|s| - 1].children
  }

  /**
   * The unwinding only pops frames and restarts the frame it stops at: the
   * frames below are untouched, and the restarted frame keeps its children.
   */
  lemma {:induction false} UnwindPrefix(vars: map<string, Num>, stack: seq<Frame>)
    ensures Unwind(vars, stack).Ready? ==> KeepsBelow(Unwind(vars, stack).stack, stack)
    decreases |stack|, 1
  {
    hide EvaluateCondition;
    if |stack| > 0 {
      var top := stack[|stack| - 1];
      var below := stack[..|stack| - 1];
      if top.blockIndex < |top.children| {
        assert stack[..|stack| - 1] == stack[..|stack| - 1];
      } else {
        var f := Counted(top);
        if (f.maxLoops.Some? && f.loopCounter.Some? && f.loopCounter.value < f.maxLoops.value) ||
           (f.untilCondition.Some? && !EvaluateCondition(vars, f.untilCondition.value)) {
          assert Unwind(vars, stack) == Ready(below + [f.(blockIndex := 0)]);
          RestartPrefix(stack, f.(blockIndex := 0));
        } else if |below| > 0 {
          assert Unwind(vars, stack) == Unwind(vars, below);
          PopPrefix(vars, stack);
        }
      }
    }
  }

  lemma RestartPrefix(stack: seq<Frame>, g: Frame)
    requires |stack| > 0 && g.children == stack[|stack| - 1].children
    ensures KeepsBelow(stack[..|stack| - 1] + [g], stack)
  {
    var s := stack[..|stack| - 1] + [g];
    assert s[..|s| - 1] == stack[..|stack| - 1];
  }

  /** The unwinding reports no frame exactly when the stack is empty. */
  lemma {:induction false} UnwindNoFrame(vars: map<string, Num>, stack: seq<Frame>)
    ensures Unwind(vars, stack).NoFrame? <==> |stack| == 0
    decreases |stack|
  {
    hide EvaluateCondition;
    if |stack| > 1 {
      UnwindNoFrame(vars, stack[..|stack| - 1]);
    }
  }

  /** A stack the unwinding produces after popping agrees with the original below its top. */
  lemma {:induction false} PopPrefix(vars: map<string, Num>, stack: seq<Frame>)
    requires |stack| > 1
    ensures var below := stack[..|stack| - 1];
      Unwind(vars, below).Ready? ==> KeepsBelow(Unwind(vars, below).stack, stack)
    decreases |stack|, 0
  {
    var below := stack[..|stack| - 1];
    UnwindPrefix(vars, below);
    if Unwind(vars, below).Ready? {
      var s := Unwind(vars, below).stack;
      KeepsBelowExtend(s, below, stack);
    }
  }

  lemma KeepsBelowExtend(s: seq<Frame>, below: seq<Frame>, stack: seq<Frame>)
    requires |stack| > 0 && below == stack[..|stack| - 1] && KeepsBelow(s, below)
    ensures KeepsBelow(s, stack)
  {
    assert stack[..|s| - 1] == below[..|s| - 1];
    assert stack[|s| - 1] == below[|s| - 1];
  }

  /** The block at the active frame's index, once the stack has been unwound. */
  function Active(s: seq<Frame>): Block
    requires |s| > 0 && s[|s| - 1].blockIndex < |s[|s| - 1].children|
  {
    s[|s| - 1].children[s[|s| - 1].blockIndex]
  }

  /** The id of the active block, if the top frame has one at its index. */
  function ActiveId(s: seq<Frame>): Option<string>
  {
    if |s| > 0 && s[|s| - 1].blockIndex < |s[|s| - 1].children| then Some(Active(s).id) else None
  }

  /** The stack after the active block ran: the top frame's index moves one past it. */
  function Advance(s: seq<Frame>): seq<Frame>
    requires |s| > 0
  {
    s[..|s| - 1] + [s[|s| - 1].(blockIndex := s[|s| - 1].blockIndex + 1)]
  }

  /**
   * One call of `step()`: nothing once halted; otherwise unwind; finish when the
   * stack empties; else mark the active block current, run it, and advance the
   * index of the frame that was on top before the run (the pushed frame, if
   * any, stays above it at index 0). A thrown error is recorded and stops the run.
   */
  function Step(m: Machine): Machine
  {
    if Halted(m.state) then m
    else
      var st := m.state.(isRunning := true);
      match Unwind(st.variables, m.stack)
      case Emptied => Machine(st.(isFinished := true, isRunning := false, currentBlockId := None), [])
      case NoFrame => Machine(st.(isFinished := true, isRunning := false), [])
      case Ready(s) =>
        if ActiveId(s).None? then
          // A restarted loop frame with no children: reading `block.id` throws out
          // of `step()` itself, keeping what the unwinding changed. Never happens
          // on a valid machine (`UnwindReady`).
          Machine(st, s)
        else
          var block := Active(s);
          var st1 := st.(currentBlockId := Some(block.id));
          match ExecuteBlockLogic(block, st1)
          case Done(st2, pushed) => Machine(st2, Advance(s) + pushed)
          case Threw(msg) => Machine(st1.(error := Some(msg), isRunning := false), s)
  }

  /** Advancing the frame at the old top after a push is advancing it before the push. */
  lemma AdvanceAfterPush(s: seq<Frame>, pushed: seq<Frame>)
    requires |s| > 0
    ensures (s + pushed)[|s| - 1 := s[|s| - 1].(blockIndex := s[|s| - 1].blockIndex + 1)] == Advance(s) + pushed
  {
  }

  /** Advancing the active frame and pushing at most one well-formed frame keeps the stack well formed. */
  lemma AdvanceValid(s: seq<Frame>, pushed: seq<Frame>)
    requires ValidStack(s) && |s| > 0 && s[|s| - 1].blockIndex < |s[|s| - 1].children|
    requires forall f :: f in pushed ==> PushedFrame(f)
    ensures ValidStack(Advance(s) + pushed)
  {
    var below := s[..|s| - 1];
    var mid := Advance(s);
    var r := mid + pushed;
    forall k | 0 <= k < |r| ensures ValidFrame(r[k]) && (k > 0 ==> |r[k].children| > 0) {
      if k < |below| { assert r[k] == s[k]; }
      else if k >= |mid| { assert r[k] in pushed; }
    }
    if |below| == 0 { assert r[0] == s[0].(blockIndex := s[0].blockIndex + 1); } else { assert r[0] == s[0]; }
  }

  /** `step()` keeps the engine invariant. */
  lemma StepValid(m: Machine)
    requires Valid(m)
    ensures Valid(Step(m))
  {
    if !Halted(m.state) {
      var st := m.state.(isRunning := true);
      UnwindReady(st.variables, m.stack);
      hide ExecuteBlockLogic;
      var u := Unwind(st.variables, m.stack);
      if u.Ready? {
        var block := Active(u.stack);
        var st1 := st.(currentBlockId := Some(block.id));
        ExecuteBlockLogicFrames(block, st1);
        ExecuteBlockLogicFlags(block, st1);
        var e := ExecuteBlockLogic(block, st1);
        if e.Done? {
          AdvanceValid(u.stack, e.pushed);
        }
      }
    }
  }

  // The cases of one step, one lemma each.

  /** A step whose unwinding empties the stack finishes the run and clears the current block. */
  lemma StepEmptied(m: Machine)
    requires !Halted(m.state) && Unwind(m.state.variables, m.stack) == Emptied
    ensures Step(m) == Machine(m.state.(isFinished := true, isRunning := false, currentBlockId := None), [])
  {
    assert m.state.(isRunning := true).variables == m.state.variables;
  }

  /** A step with no frame at all finishes the run but keeps the current block. */
  lemma StepNoFrame(m: Machine)
    requires !Halted(m.state) && |m.stack| == 0
    ensures Step(m) == Machine(m.state.(isFinished := true, isRunning := false), [])
  {
  }

  /** A step that restarts a loop frame without children stops there, as the source's `step()` throws. */
  lemma StepStuck(m: Machine, s: seq<Frame>)
    requires !Halted(m.state) && Unwind(m.state.variables, m.stack) == Ready(s) && ActiveId(s).None?
    ensures Step(m) == Machine(m.state.(isRunning := true), s)
  {
    assert m.state.(isRunning := true).variables == m.state.variables;
  }

  /** A step whose block runs: the block's effect, then the old top frame advanced below any pushed frame. */
  lemma StepDone(m: Machine, s: seq<Frame>, st2: RuntimeState, pushed: seq<Frame>)
    requires !Halted(m.state) && Unwind(m.state.variables, m.stack) == Ready(s) && ActiveId(s).Some?
    requires ExecuteBlockLogic(Active(s), m.state.(isRunning := true, currentBlockId := ActiveId(s))) == Done(st2, pushed)
    ensures Step(m) == Machine(st2, Advance(s) + pushed)
  {
    hide ExecuteBlockLogic;
    assert m.state.(isRunning := true).variables == m.state.variables;
  }

  /** A step whose block throws records the message, stops running and leaves the stack as unwound. */
  lemma StepThrew(m: Machine, s: seq<Frame>, msg: string)
    requires !Halted(m.state) && Unwind(m.state.variables, m.stack) == Ready(s) && ActiveId(s).Some?
    requires ExecuteBlockLogic(Active(s), m.state.(isRunning := true, currentBlockId := ActiveId(s))) == Threw(msg)
    ensures Step(m) == Machine(m.state.(isRunning := false, currentBlockId := ActiveId(s), error := Some(msg)), s)
  {
    hide ExecuteBlockLogic;
    assert m.state.(isRunning := true).variables == m.state.variables;
  }

  /** Once finished or failed, `step()` changes neither state nor stack. */
  lemma StepHalted(m: Machine)
    requires Halted(m.state)
    ensures Step(m) == m
  {
  }

  /**
   * A step that does not finish sets `currentBlockId` to the block at the active
   * frame's index and adds at most one console line; a finishing step adds none
   * and clears `currentBlockId` and `isRunning`.
   */
  lemma StepObservable(m: Machine)
    requires Valid(m) && !Halted(m.state)
    ensures var u := Unwind(m.state.variables, m.stack);
      (u.Ready? ==> ActiveId(u.stack).Some? && Step(m).state.currentBlockId == ActiveId(u.stack)) &&
      (!u.Ready? ==> Step(m).state.isFinished && !Step(m).state.isRunning && Step(m).state.consoleOutput == m.state.consoleOutput)
    ensures Step(m).state.consoleOutput == m.state.consoleOutput ||
      exists line :: Step(m).state.consoleOutput == m.state.consoleOutput + [line]
  {
    var st := m.state.(isRunning := true);
    UnwindReady(st.variables, m.stack);
    hide ExecuteBlockLogic;
    var u := Unwind(st.variables, m.stack);
    if u.Ready? {
      var block := Active(u.stack);
      ExecuteBlockLogicConsole(block, st.(currentBlockId := Some(block.id)));
      ExecuteBlockLogicFlags(block, st.(currentBlockId := Some(block.id)));
    }
  }

  // ---- runs of several steps ----

  function Run(m: Machine, n: nat): Machine
    decreases n
  {
    if n == 0 then m else Run(Step(m), n - 1)
  }

  lemma {:induction false} RunValid(m: Machine, n: nat)
    requires Valid(m)
    ensures Valid(Run(m, n))
    decreases n
  {
    if n > 0 {
      StepValid(m);
      RunValid(Step(m), n - 1);
    }
  }

  lemma {:induction false} RunAdd(m: Machine, a: nat, b: nat)
    ensures Run(m, a + b) == Run(Run(m, a), b)
    decreases a
  {
    if a > 0 {
      RunAdd(Step(m), a - 1, b);
    }
  }
}
