/**
 * The `LogicEngine` class: the program it was built with, the run state and the
 * frame stack, updated in place by `step()` one block at a time. Every method
 * is proved to do what the functions of `LogicSpec` say.
 */
module LogicEngines {
  import opened Wrappers
  import opened JsValues
  import opened Blocks
  import LogicSpec
  import CodeGen

  class LogicEngine {
    const program: seq<Block>
    var state: RuntimeState
    var stack: seq<LogicSpec.Frame>

    /** The engine's state and stack as one value. */
    function Machine(): LogicSpec.Machine
      reads this
    {
      LogicSpec.Machine(state, stack)
    }

    /** A fresh engine: empty state and one frame over the whole program at index 0. */
    constructor(program: seq<Block>)
      ensures this.program == program
      ensures Machine() == LogicSpec.Initial(program)
      ensures LogicSpec.Valid(Machine())
    {
      this.program := program;
      state := LogicSpec.InitialState;
      stack := [LogicSpec.RootFrame(program)];
    }

    /** `reset()`: back to the state the constructor produced, for the same program. */
    method Reset()
      modifies this
      ensures Machine() == LogicSpec.Initial(program)
      ensures LogicSpec.Valid(Machine())
    {
      state := LogicSpec.InitialState;
      stack := [LogicSpec.RootFrame(program)];
    }

    /** `getState()`: a copy of the run state. */
    method GetState() returns (r: RuntimeState)
      ensures r == state
    {
      r := state;
    }

    /** `evaluateCondition` reads the variables of the current state. */
    method EvaluateCondition(varName: string, op: Value, val: Num) returns (r: bool)
      ensures r == LogicSpec.EvaluateCondition(state.variables, LogicSpec.Condition(varName, op, val))
    {
      var vars := state.variables;
      var lhs := if varName in vars then (if vars[varName].Int? then vars[varName] else Int(0))
        else if varName in LogicSpec.InheritedNames then NaN
        else Int(0);
      if op == Str(">") {
        r := lhs.Int? && val.Int? && lhs.i > val.i;
      } else if op == Str("<") {
        r := lhs.Int? && val.Int? && lhs.i < val.i;
      } else if op == Str("==") {
        r := lhs.Int? && val.Int? && lhs.i == val.i;
      } else if op == Str("!=") {
        r := !(lhs.Int? && val.Int? && lhs.i == val.i);
      } else {
        r := false;
      }
    }

    /**
     * `executeBlockLogic`: update the state and push at most one frame, as
     * `LogicSpec.ExecuteBlockLogic` says; a thrown message is returned instead,
     * with nothing changed.
     */
    method ExecuteBlockLogic(block: Block) returns (thrown: Option<string>)
      modifies this
      ensures match LogicSpec.ExecuteBlockLogic(block, old(state))
        case Done(st, pushed) => thrown.None? && state == st && stack == old(stack) + pushed
        case Threw(msg) => thrown == Some(msg) && state == old(state) && stack == old(stack)
    {
      thrown := None;
      var vars := state.variables;
      match block.blockType
      case "start" =>
        state := state.(consoleOutput := state.consoleOutput + ["> Program Started"]);
      case "print" =>
        var msg := ToStr(Param(block, "message"));
        if LogicSpec.HasOwnPropertyName in vars {
          thrown := Some(LogicSpec.HasOwnPropertyError);
        } else if msg in vars {
          state := state.(consoleOutput := state.consoleOutput + ["> " + NumToString(vars[msg])]);
        } else {
          state := state.(consoleOutput := state.consoleOutput + ["> " + msg]);
        }
      case "set_var" =>
        state := state.(variables := SetProperty(vars, ToStr(Param(block, "name")), ToNumber(Param(block, "value"))));
      case "change_var" =>
        var name := ToStr(Param(block, "name"));
        // The `=== undefined` test and the first write: an unbound name starts from 0.
        var current := if name in vars then vars[name] else Int(0);
        state := state.(variables := SetProperty(vars, name, AddNum(current, ToNumber(Param(block, "value")))));
      case "wait" =>
        state := state.(consoleOutput := state.consoleOutput + ["> Waiting " + ToStr(Param(block, "seconds")) + "s..."]);
      case "move" =>
        state := state.(consoleOutput := state.consoleOutput + ["> Avatar moving " + ToStr(Param(block, "direction"))]);
      case "repeat" =>
        if HasNonEmptyChildren(block) {
          var count := LogicSpec.LoopCount(ToNumber(Param(block, "times")));
          stack := stack + [LogicSpec.Frame(0, block.children, Some(0), Some(count), None)];
        }
      case "repeat_until" =>
        if HasNonEmptyChildren(block) {
          var condVar := ToStr(Param(block, "condition_var"));
          var op := Param(block, "operator");
          var val := ToNumber(Param(block, "value"));
          var isMet := EvaluateCondition(condVar, op, val);
          if !isMet {
            stack := stack + [LogicSpec.Frame(0, block.children, None, None, Some(LogicSpec.Condition(condVar, op, val)))];
          }
        }
      case "if" =>
        if HasNonEmptyChildren(block) {
          var condition := EvaluateCondition(ToStr(Param(block, "condition_var")), Param(block, "operator"), ToNumber(Param(block, "value")));
          if condition {
            stack := stack + [LogicSpec.Frame(0, block.children, None, None, None)];
          }
        }
      case _ =>
    }

    /**
     * The `while` loop at the head of `step()`: restart the top frame if it is a
     * loop with passes left or an until loop whose condition is not met, and pop
     * it otherwise, until a frame has a block left or the stack is empty.
     */
    method UnwindFrames() returns (u: LogicSpec.Unwound)
      modifies this
      ensures state == old(state)
      ensures u == LogicSpec.Unwind(state.variables, old(stack))
      ensures stack == if u.Ready? then u.stack else []
      ensures u.Ready? ==> |stack| > 0
    {
      ghost var s0 := stack;
      while |stack| > 0 && stack[|stack| - 1].blockIndex >= |stack[|stack| - 1].children|
        invariant state == old(state)
        invariant LogicSpec.Unwind(state.variables, stack) == LogicSpec.Unwind(state.variables, s0)
        invariant |stack| == 0 ==> |s0| == 0
        decreases |stack|
      {
        var currentFrame := stack[|stack| - 1];
        if currentFrame.maxLoops.Some? && currentFrame.loopCounter.Some? {
          currentFrame := currentFrame.(loopCounter := Some(currentFrame.loopCounter.value + 1));
          stack := stack[|stack| - 1 := currentFrame];
          if currentFrame.loopCounter.value < currentFrame.maxLoops.value {
            stack := stack[|stack| - 1 := currentFrame.(blockIndex := 0)];
            return LogicSpec.Ready(stack);
          }
        }
        if currentFrame.untilCondition.Some? {
          var cond := currentFrame.untilCondition.value;
          var isMet := EvaluateCondition(cond.varName, cond.op, cond.val);
          if !isMet {
            stack := stack[|stack| - 1 := currentFrame.(blockIndex := 0)];
            return LogicSpec.Ready(stack);
          }
        }
        stack := stack[..|stack| - 1];
        if |stack| == 0 {
          return LogicSpec.Emptied;
        }
      }
      u := if |stack| == 0 then LogicSpec.NoFrame else LogicSpec.Ready(stack);
    }

    /**
     * `step()`: unwind exhausted frames, then run the block at the top frame's
     * index and advance that frame. The new state and stack are exactly
     * `LogicSpec.Step` of the old ones.
     */
    method Step() returns (r: RuntimeState)
      modifies this
      ensures Machine() == LogicSpec.Step(old(Machine()))
      ensures r == state
    {
      ghost var m0 := Machine();
      hide LogicSpec.Step, LogicSpec.ExecuteBlockLogic, LogicSpec.Unwind;
      if state.isFinished || (state.error.Some? && state.error.value != "") {
        LogicSpec.StepHalted(m0);
        return state;
      }
      state := state.(isRunning := true);
      var u := UnwindFrames();
      if u.Emptied? {
        LogicSpec.StepEmptied(m0);
        state := state.(isFinished := true, isRunning := false, currentBlockId := None);
        return state;
      } else if u.NoFrame? {
        LogicSpec.UnwindNoFrame(m0.state.variables, m0.stack);
        LogicSpec.StepNoFrame(m0);
        state := state.(isFinished := true, isRunning := false);
        return state;
      }
      var frameIndex := |stack| - 1;
      var currentFrame := stack[frameIndex];
      if currentFrame.blockIndex >= |currentFrame.children| {
        // `children[blockIndex]` is undefined and reading its `id` throws out of
        // `step()`, leaving what the unwinding changed.
        LogicSpec.StepStuck(m0, stack);
        return state;
      }
      ghost var s := stack;
      var block := currentFrame.children[currentFrame.blockIndex];
      state := state.(currentBlockId := Some(block.id));
      var thrown := ExecuteBlockLogic(block);
      if thrown.None? {
        LogicSpec.StepDone(m0, s, state, stack[|s|..]);
        // The frame that was on top before the block ran, wherever a push moved it.
        LogicSpec.AdvanceAfterPush(s, stack[|s|..]);
        stack := stack[frameIndex := stack[frameIndex].(blockIndex := stack[frameIndex].blockIndex + 1)];
      } else {
        LogicSpec.StepThrew(m0, s, thrown.value);
        state := state.(error := thrown, isRunning := false);
      }
      r := state;
    }

    /** `generatePython()` on the engine's own program. */
    method GeneratePython() returns (code: string)
      ensures code == CodeGen.GeneratePython(program)
    {
      code := CodeGen.GeneratePython(program);
    }
  }
}
