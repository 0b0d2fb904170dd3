/**
 * What runs of the block engine do: straight-line code visits its blocks in
 * order and then finishes, `repeat` runs its body a fixed number of passes,
 * `if` and `repeat_until` push a frame only when their condition says so, and
 * a worked example.
 */
module LogicRuns {
  import opened Wrappers
  import opened Numerals
  import opened JsValues
  import opened Blocks
  import opened LogicSpec

  /** A block that never pushes a frame. */
  predicate Simple(b: Block)
  {
    !(b.blockType in {"repeat", "repeat_until", "if"} && HasNonEmptyChildren(b))
  }

  /** A block that never binds the variable `hasOwnProperty`, the one name that makes `print` throw. */
  predicate Safe(b: Block)
  {
    !((b.blockType == "set_var" || b.blockType == "change_var") && ToStr(Param(b, "name")) == HasOwnPropertyName)
  }

  predicate Straight(bs: seq<Block>)
  {
    forall k :: 0 <= k < |bs| ==> Simple(bs[k]) && Safe(bs[k])
  }

  /** The state after one step that runs `b` (and pushes nothing). */
  function Apply(b: Block, st: RuntimeState): RuntimeState
  {
    var st1 := st.(isRunning := true, currentBlockId := Some(b.id));
    match ExecuteBlockLogic(b, st1)
    case Done(st2, _) => st2
    case Threw(msg) => st1.(error := Some(msg), isRunning := false)
  }

  /** The state after running `bs` one block per step, in order. */
  function RunBlocks(bs: seq<Block>, st: RuntimeState): RuntimeState
  {
    if |bs| == 0 then st else Apply(bs[|bs| - 1], RunBlocks(bs[..|bs| - 1], st))
  }

  /** The state after `n` passes of a loop body. */
  function Passes(body: seq<Block>, n: nat, st: RuntimeState): RuntimeState
  {
    if n == 0 then st else RunBlocks(body, Passes(body, n - 1, st))
  }

  /** Running state: not halted, `hasOwnProperty` unbound. */
  predicate Clean(st: RuntimeState)
  {
    !Halted(st) && HasOwnPropertyName !in st.variables
  }

  lemma ApplyClean(b: Block, st: RuntimeState)
    requires Simple(b) && Safe(b) && Clean(st)
    ensures Clean(Apply(b, st))
    ensures Apply(b, st).currentBlockId == Some(b.id) && Apply(b, st).isRunning
    ensures ExecuteBlockLogic(b, st.(isRunning := true, currentBlockId := Some(b.id))) ==
      Done(Apply(b, st), [])
  {
  }

  lemma {:induction false} RunBlocksClean(bs: seq<Block>, st: RuntimeState)
    requires Straight(bs) && Clean(st)
    ensures Clean(RunBlocks(bs, st))
    ensures |bs| > 0 ==> RunBlocks(bs, st).currentBlockId == Some(bs[|bs| - 1].id)
  {
    if |bs| > 0 {
      RunBlocksClean(bs[..|bs| - 1], st);
      ApplyClean(bs[|bs| - 1], RunBlocks(bs[..|bs| - 1], st));
    }
  }

  lemma {:induction false} PassesClean(body: seq<Block>, n: nat, st: RuntimeState)
    requires Straight(body) && Clean(st)
    ensures Clean(Passes(body, n, st))
  {
    if n > 0 {
      PassesClean(body, n - 1, st);
      RunBlocksClean(body, Passes(body, n - 1, st));
    }
  }

  /** Two machines with the same state whose stacks unwind alike take the same step. */
  lemma SameUnwind(m1: Machine, m2: Machine, n: nat)
    requires m1.state == m2.state && !Halted(m1.state) && n > 0
    requires Unwind(m1.state.variables, m1.stack) == Unwind(m2.state.variables, m2.stack)
    ensures Run(m1, n) == Run(m2, n)
  {
    assert Step(m1) == Step(m2);
  }

  /** `RunBlocks` as a forward fold: the first block runs first. */
  lemma {:induction false} RunBlocksCons(b: Block, bs: seq<Block>, st: RuntimeState)
    ensures RunBlocks([b] + bs, st) == RunBlocks(bs, Apply(b, st))
    decreases |bs|
  {
    if |bs| > 0 {
      var front := bs[..|bs| - 1];
      assert ([b] + bs)[..|bs|] == [b] + front;
      RunBlocksCons(b, front, st);
    } else {
      assert ([b] + bs)[..0] == [];
    }
  }

  /** One step at a frame whose next block pushes nothing: run it, advance the index. */
  lemma StepSimple(m: Machine)
    requires Clean(m.state) && |m.stack| > 0
    requires var top := m.stack[|m.stack| - 1]; top.blockIndex < |top.children| && Simple(Active(m.stack))
    ensures Step(m) == Machine(Apply(Active(m.stack), m.state), Advance(m.stack))
  {
    var b := Active(m.stack);
    var st1 := m.state.(isRunning := true, currentBlockId := Some(b.id));
    assert Unwind(m.state.(isRunning := true).variables, m.stack) == Ready(m.stack);
    assert ExecuteBlockLogic(b, st1).Done?;
    assert ExecuteBlockLogic(b, st1).pushed == [];
  }

  lemma StraightSlice(bs: seq<Block>, lo: nat, hi: nat)
    requires Straight(bs) && lo <= hi <= |bs|
    ensures Straight(bs[lo..hi])
  {
    forall k | 0 <= k < hi - lo ensures Simple(bs[lo..hi][k]) && Safe(bs[lo..hi][k]) {
      assert bs[lo..hi][k] == bs[lo + k];
    }
  }

  /**
   * From a frame at index `i`, `j` steps over blocks that push nothing run
   * exactly `children[i..i+j]`, in order, and leave the frame at index `i + j`.
   */
  lemma {:induction false} RunStraight(m: Machine, j: nat)
    requires Clean(m.state) && |m.stack| > 0
    requires var top := m.stack[|m.stack| - 1];
      top.blockIndex + j <= |top.children| && Straight(top.children[top.blockIndex..top.blockIndex + j])
    ensures var top := m.stack[|m.stack| - 1];
      Run(m, j) == Machine(RunBlocks(top.children[top.blockIndex..top.blockIndex + j], m.state),
                           m.stack[..|m.stack| - 1] + [top.(blockIndex := top.blockIndex + j)])
    decreases j
  {
    hide ExecuteBlockLogic, Step, Apply, RunBlocks, Advance, Run;
    var top := m.stack[|m.stack| - 1];
    var i := top.blockIndex;
    var seg := top.children[i..i + j];
    if j == 0 {
      RunNone(m, m.state);
      assert seg == [];
      assert m.stack[..|m.stack| - 1] + [top] == m.stack;
    } else {
      assert Active(m.stack) == seg[0];
      StepSimple(m);
      ApplyClean(seg[0], m.state);
      var m1 := Step(m);
      StepForward(m.stack, top.children, i, j);
      StraightSlice(seg, 1, j);
      RunStraight(m1, j - 1);
      RunBlocksCons(seg[0], seg[1..], m.state);
      assert [seg[0]] + seg[1..] == seg;
      StepThenRun(m, m1, j - 1, Run(m1, j - 1));
    }
  }

  /** No steps change nothing, and no blocks run change nothing. */
  lemma RunNone(m: Machine, st: RuntimeState)
    ensures Run(m, 0) == m && RunBlocks([], st) == st
  {
  }

  /** The frame arithmetic of one step of `RunStraight`. */
  lemma StepForward(stack: seq<Frame>, children: seq<Block>, i: nat, j: nat)
    requires |stack| > 0 && stack[|stack| - 1].children == children && stack[|stack| - 1].blockIndex == i
    requires 0 < j && i + j <= |children|
    ensures var a := Advance(stack); var top := stack[|stack| - 1];
      |a| == |stack| && a[|a| - 1] == top.(blockIndex := i + 1) && a[..|a| - 1] == stack[..|stack| - 1] &&
      a[|a| - 1].children[i + 1..i + 1 + (j - 1)] == children[i..i + j][1..] &&
      a[..|a| - 1] + [a[|a| - 1].(blockIndex := i + 1 + (j - 1))] ==
        stack[..|stack| - 1] + [top.(blockIndex := i + j)]
  {
  }

  lemma RunOne(m: Machine)
    ensures Run(m, 1) == Step(m)
  {
  }

  /**
   * A program of blocks that push nothing: after step k (k <= N) the k-th block
   * is current and the first k blocks have run, and the root frame is at index k.
   */
  lemma FlatProgram(program: seq<Block>, k: nat)
    requires Straight(program) && k <= |program|
    ensures Run(Initial(program), k) == Machine(RunBlocks(program[..k], InitialState), [RootFrame(program).(blockIndex := k)])
    ensures k > 0 ==> Run(Initial(program), k).state.currentBlockId == Some(program[k - 1].id)
  {
    var m := Initial(program);
    assert program[0..k] == program[..k];
    StraightSlice(program, 0, k);
    RunStraight(m, k);
    RunBlocksClean(program[..k], InitialState);
  }

  /**
   * Step N + 1 of such a program finishes: it sets `isFinished`, clears
   * `isRunning` and `currentBlockId`, and empties the stack. With N = 0 the very
   * first step finishes.
   */
  lemma FlatProgramFinishes(program: seq<Block>)
    requires Straight(program)
    ensures var done := Run(Initial(program), |program| + 1);
      done.state == RunBlocks(program, InitialState).(isRunning := false, isFinished := true, currentBlockId := None) &&
      done.stack == []
  {
    var n := |program|;
    FlatProgram(program, n);
    assert program[..n] == program;
    var last := Machine(RunBlocks(program, InitialState), [RootFrame(program).(blockIndex := n)]);
    FlatLastStep(program, last);
    RunThenStep(Initial(program), n, last);
  }

  lemma FlatLastStep(program: seq<Block>, last: Machine)
    requires Straight(program)
    requires last == Machine(RunBlocks(program, InitialState), [RootFrame(program).(blockIndex := |program|)])
    ensures Step(last) == Machine(RunBlocks(program, InitialState).(isRunning := false, isFinished := true, currentBlockId := None), [])
  {
    RunBlocksClean(program, InitialState);
    assert Unwind(last.state.variables, last.stack) == Emptied;
    StepEmptied(last);
  }

  /** A run of n steps followed by one more. */
  lemma RunThenStep(m: Machine, n: nat, last: Machine)
    requires Run(m, n) == last
    ensures Run(m, n + 1) == Step(last)
  {
    RunAdd(m, n, 1);
  }

  /** `times` n gives max(n, 1) passes; `times` that is not a number gives 1. */
  function RepeatPasses(times: Num): (p: nat)
    ensures p >= 1
    ensures times.NaN? ==> p == 1
    ensures times.Int? ==> p == if times.i >= 1 then times.i else 1
  {
    var c := LoopCount(times);
    if c >= 1 then c else 1
  }

  /** A run of `a` steps followed by a run of `b` steps. */
  lemma RunCompose(m: Machine, a: nat, mid: Machine, b: nat, end: Machine)
    requires Run(m, a) == mid && Run(mid, b) == end
    ensures Run(m, a + b) == end
  {
    RunAdd(m, a, b);
  }

  /** One step followed by a run of `k` steps. */
  lemma StepThenRun(m: Machine, m1: Machine, k: nat, end: Machine)
    requires Step(m) == m1 && Run(m1, k) == end
    ensures Run(m, 1 + k) == end
  {
  }

  /** A full pass over a frame at index 0 whose body pushes nothing leaves the frame at the end of its body. */
  lemma RunPass(m: Machine, st: RuntimeState, below: seq<Frame>, f: Frame)
    requires Clean(st) && f.blockIndex == 0 && Straight(f.children)
    requires m == Machine(st, below + [f])
    ensures Run(m, |f.children|) == Machine(RunBlocks(f.children, st), below + [f.(blockIndex := |f.children|)])
  {
    assert m.stack[..|m.stack| - 1] == below;
    assert f.children[0..|f.children|] == f.children;
    RunStraight(m, |f.children|);
  }

  /** The end of pass `p + 1` of a counted body: the frame restarts, and a further pass runs. */
  lemma PassStep(m: Machine, st: RuntimeState, next: seq<Frame>, body: seq<Block>, p: int, c: int)
    requires Clean(st) && |body| > 0 && Straight(body) && p + 1 < c
    requires m == Machine(st, next + [Frame(|body|, body, Some(p), Some(c), None)])
    ensures Run(m, |body|) == Machine(RunBlocks(body, st), next + [Frame(|body|, body, Some(p + 1), Some(c), None)])
  {
    var f := Frame(0, body, Some(p + 1), Some(c), None);
    var restarted := Machine(st, next + [f]);
    assert (next + [Frame(|body|, body, Some(p), Some(c), None)])[..|next|] == next;
    assert Unwind(st.variables, m.stack) == Ready(restarted.stack);
    assert Unwind(st.variables, restarted.stack) == Ready(restarted.stack);
    SameUnwind(m, restarted, |body|);
    RunPass(restarted, st, next, f);
  }

  /**
   * A `repeat` with a non-empty body of blocks that push nothing: its step pushes
   * a counted frame, the next P * |body| steps run P full passes of the body,
   * where P = max(times, 1), and the frame is then exhausted, so that unwinding
   * continues exactly as if the `repeat` had been the last block run in its
   * parent: at the next sibling.
   */
  lemma RepeatRuns(m: Machine)
    requires Clean(m.state) && |m.stack| > 0
    requires var top := m.stack[|m.stack| - 1]; top.blockIndex < |top.children|
    requires var r := Active(m.stack);
      r.blockType == "repeat" && HasNonEmptyChildren(r) && Straight(r.children)
    ensures var r := Active(m.stack);
      var passes := RepeatPasses(ToNumber(Param(r, "times")));
      var after := Run(m, 1 + PassSteps(passes, |r.children|));
      after.state == Passes(r.children, passes, m.state.(isRunning := true, currentBlockId := Some(r.id))) &&
      after.stack == Advance(m.stack) + [Frame(|r.children|, r.children, Some(passes - 1), Some(LoopCount(ToNumber(Param(r, "times")))), None)] &&
      forall vars :: Unwind(vars, after.stack) == Unwind(vars, Advance(m.stack))
  {
    hide ExecuteBlockLogic;
    var r := Active(m.stack);
    var body := r.children;
    var next := Advance(m.stack);
    var c := LoopCount(ToNumber(Param(r, "times")));
    var P := RepeatPasses(ToNumber(Param(r, "times")));
    var st1 := m.state.(isRunning := true, currentBlockId := Some(r.id));
    var m1 := Machine(st1, next + [Frame(0, body, Some(0), Some(c), None)]);
    var exhausted := Frame(|body|, body, Some(P - 1), Some(c), None);
    var goal := Machine(Passes(body, P, st1), next + [exhausted]);
    StepRepeat(m);
    CountedPasses(m1, next, body, c, st1, P - 1);
    StepThenRun(m, m1, PassSteps(P, |body|), goal);
    forall vars ensures Unwind(vars, next + [exhausted]) == Unwind(vars, next) {
      DropExhausted(vars, next, exhausted);
    }
  }

  /** An exhausted counted frame whose count is used up is popped without effect. */
  lemma DropExhausted(vars: map<string, Num>, next: seq<Frame>, f: Frame)
    requires |next| > 0 && f.blockIndex >= |f.children| && f.untilCondition.None?
    requires f.loopCounter.Some? && f.maxLoops.Some? && f.loopCounter.value + 1 >= f.maxLoops.value
    ensures Unwind(vars, next + [f]) == Unwind(vars, next)
  {
    assert (next + [f])[..|next|] == next;
  }

  /** After the push, p + 1 passes take (p + 1) * |body| steps and leave the frame exhausted with counter p. */
  lemma {:induction false} CountedPasses(m: Machine, next: seq<Frame>, body: seq<Block>, c: int, st: RuntimeState, p: nat)
    requires Clean(st) && |body| > 0 && Straight(body)
    requires m == Machine(st, next + [Frame(0, body, Some(0), Some(c), None)])
    requires p == 0 || p < c
    ensures Run(m, PassSteps(p + 1, |body|)) == Machine(Passes(body, p + 1, st), next + [Frame(|body|, body, Some(p), Some(c), None)])
  {
    hide ExecuteBlockLogic;
    if p == 0 {
      RunPass(m, st, next, Frame(0, body, Some(0), Some(c), None));
    } else {
      CountedPasses(m, next, body, c, st, p - 1);
      var cur := Machine(Passes(body, p, st), next + [Frame(|body|, body, Some(p - 1), Some(c), None)]);
      PassesClean(body, p, st);
      PassStep(cur, Passes(body, p, st), next, body, p - 1, c);
      RunCompose(m, PassSteps(p, |body|), cur, |body|, Machine(Passes(body, p + 1, st), next + [Frame(|body|, body, Some(p), Some(c), None)]));
    }
  }

  /** The number of steps `n` passes of a body of `L` blocks take. */
  function PassSteps(n: nat, L: nat): nat
  {
    if n == 0 then 0 else PassSteps(n - 1, L) + L
  }

  lemma {:induction false} PassStepsProduct(n: nat, L: nat)
    ensures PassSteps(n, L) == n * L
  {
    if n > 0 {
      PassStepsProduct(n - 1, L);
      assert (n - 1) * L + L == n * L;
    }
  }

  /** The step that runs a non-empty `repeat` pushes a counted frame at index 0. */
  lemma StepRepeat(m: Machine)
    requires Clean(m.state) && |m.stack| > 0
    requires var top := m.stack[|m.stack| - 1]; top.blockIndex < |top.children|
    requires var r := Active(m.stack); r.blockType == "repeat" && HasNonEmptyChildren(r)
    ensures var r := Active(m.stack);
      Step(m) == Machine(m.state.(isRunning := true, currentBlockId := Some(r.id)),
                         Advance(m.stack) + [Frame(0, r.children, Some(0), Some(LoopCount(ToNumber(Param(r, "times")))), None)])
  {
    assert Unwind(m.state.(isRunning := true).variables, m.stack) == Ready(m.stack);
  }

  /** If the step lands on `if` with a false condition or no children, nothing is pushed and only the current block changes. */
  lemma IfSkips(m: Machine)
    requires Clean(m.state) && |m.stack| > 0
    requires var top := m.stack[|m.stack| - 1]; top.blockIndex < |top.children|
    requires var b := Active(m.stack);
      b.blockType == "if" &&
      !(HasNonEmptyChildren(b) &&
        EvaluateCondition(m.state.variables, Condition(ToStr(Param(b, "condition_var")), Param(b, "operator"), ToNumber(Param(b, "value")))))
    ensures Step(m) == Machine(m.state.(isRunning := true, currentBlockId := Some(Active(m.stack).id)),
                         Advance(m.stack))
  {
    assert Unwind(m.state.(isRunning := true).variables, m.stack) == Ready(m.stack);
  }

  /** An `if` whose condition holds pushes a plain frame over its children; the parent moves past the `if`. */
  lemma IfEnters(m: Machine)
    requires Clean(m.state) && |m.stack| > 0
    requires var top := m.stack[|m.stack| - 1]; top.blockIndex < |top.children|
    requires var b := Active(m.stack);
      b.blockType == "if" && HasNonEmptyChildren(b) &&
      EvaluateCondition(m.state.variables, Condition(ToStr(Param(b, "condition_var")), Param(b, "operator"), ToNumber(Param(b, "value"))))
    ensures Step(m) == Machine(m.state.(isRunning := true, currentBlockId := Some(Active(m.stack).id)),
                         Advance(m.stack) + [Frame(0, Active(m.stack).children, None, None, None)])
  {
    assert Unwind(m.state.(isRunning := true).variables, m.stack) == Ready(m.stack);
  }

  /** A `repeat_until` whose condition already holds is skipped. */
  lemma UntilSkips(m: Machine)
    requires Clean(m.state) && |m.stack| > 0
    requires var top := m.stack[|m.stack| - 1]; top.blockIndex < |top.children|
    requires var b := Active(m.stack);
      b.blockType == "repeat_until" &&
      EvaluateCondition(m.state.variables, Condition(ToStr(Param(b, "condition_var")), Param(b, "operator"), ToNumber(Param(b, "value"))))
    ensures Step(m) == Machine(m.state.(isRunning := true, currentBlockId := Some(Active(m.stack).id)),
                         Advance(m.stack))
  {
    assert Unwind(m.state.(isRunning := true).variables, m.stack) == Ready(m.stack);
  }

  /** Otherwise a non-empty `repeat_until` pushes a frame that carries its condition. */
  lemma UntilEnters(m: Machine)
    requires Clean(m.state) && |m.stack| > 0
    requires var top := m.stack[|m.stack| - 1]; top.blockIndex < |top.children|
    requires var b := Active(m.stack);
      b.blockType == "repeat_until" && HasNonEmptyChildren(b) &&
      !EvaluateCondition(m.state.variables, Condition(ToStr(Param(b, "condition_var")), Param(b, "operator"), ToNumber(Param(b, "value"))))
    ensures var b := Active(m.stack);
      Step(m) == Machine(m.state.(isRunning := true, currentBlockId := Some(b.id)),
                         Advance(m.stack) + [Frame(0, b.children, None, None,
                             Some(Condition(ToStr(Param(b, "condition_var")), Param(b, "operator"), ToNumber(Param(b, "value")))))])
  {
    assert Unwind(m.state.(isRunning := true).variables, m.stack) == Ready(m.stack);
  }

  /** After each full pass, a `repeat_until` frame starts its body again while the condition fails, and is popped once it holds. */
  lemma UntilRetest(vars: map<string, Num>, below: seq<Frame>, body: seq<Block>, c: Condition)
    requires |below| > 0
    ensures Unwind(vars, below + [Frame(|body|, body, None, None, Some(c))]) ==
      if EvaluateCondition(vars, c) then Unwind(vars, below)
      else Ready(below + [Frame(0, body, None, None, Some(c))])
  {
    var s := below + [Frame(|body|, body, None, None, Some(c))];
    assert s[..|s| - 1] == below;
  }

  // ---- A worked example ----

  const ScoreBody: seq<Block> := [
    Plain("b3", "change_var", map["name" := Str("score"), "value" := Number(5)]),
    Plain("b4", "print", map["message" := Str("score")])
  ]

  /** `set_var score 0`, then `repeat 3 { change_var score 5; print score }`. */
  const ScoreProgram: seq<Block> := [
    Plain("b1", "set_var", map["name" := Str("score"), "value" := Number(0)]),
    Nested("b2", "repeat", map["times" := Number(3)], ScoreBody)
  ]

  lemma ScorePass(st: RuntimeState, before: int)
    requires Clean(st) && st.variables == map["score" := Int(before)]
    ensures RunBlocks(ScoreBody, st) ==
      st.(variables := map["score" := Int(before + 5)],
          consoleOutput := st.consoleOutput + ["> " + IntToString(before + 5)],
          currentBlockId := Some("b4"), isRunning := true)
  {
    var b3 := ScoreBody[0];
    var b4 := ScoreBody[1];
    assert ScoreBody[..1] == [b3];
    assert [b3][..0] == [];
    var s1 := Apply(b3, st);
    assert RunBlocks(ScoreBody[..1], st) == s1;
    assert s1.variables == map["score" := Int(before + 5)];
    assert ScoreBody[..|ScoreBody| - 1] == [b3];
  }

  /** The state after the `set_var`: `score` is 0 and `b1` is current. */
  const ScoreSet: RuntimeState := InitialState.(variables := map["score" := Int(0)], isRunning := true, currentBlockId := Some("b1"))

  /** The state after the three passes: three lines printed, `score` at 15, `b4` current. */
  const ScoreLooped: RuntimeState :=
    InitialState.(variables := map["score" := Int(15)], consoleOutput := ["> 5", "> 10", "> 15"],
                  isRunning := true, currentBlockId := Some("b4"))

  lemma ScoreFirstStep()
    ensures Step(Initial(ScoreProgram)) == Machine(ScoreSet, [Frame(1, ScoreProgram, None, None, None)])
  {
    var m0 := Initial(ScoreProgram);
    assert Active(m0.stack) == ScoreProgram[0];
    StepSimple(m0);
  }

  lemma ScoreThreePasses(st1: RuntimeState)
    requires st1 == ScoreSet.(currentBlockId := Some("b2"))
    ensures Passes(ScoreBody, 3, st1) == ScoreLooped
  {
    hide ExecuteBlockLogic, Apply;
    ScorePass(st1, 0);
    var s1 := RunBlocks(ScoreBody, st1);
    ScorePass(s1, 5);
    var s2 := RunBlocks(ScoreBody, s1);
    ScorePass(s2, 10);
    var s3 := RunBlocks(ScoreBody, s2);
    ScoreLines();
    hide IntToString, RunBlocks;
    assert s1.consoleOutput == ["> 5"];
    assert s2.consoleOutput == ["> 5", "> 10"];
    assert Passes(ScoreBody, 1, st1) == s1;
    assert Passes(ScoreBody, 2, st1) == s2;
    assert Passes(ScoreBody, 3, st1) == s3;
  }

  /** The three lines the passes print. */
  lemma ScoreLines()
    ensures "> " + IntToString(0 + 5) == "> 5" && "> " + IntToString(5 + 5) == "> 10" && "> " + IntToString(10 + 5) == "> 15"
  {
    assert IntToString(5) == "5" && IntToString(10) == "10" && IntToString(15) == "15";
  }

  lemma ScoreLoop(m1: Machine, after: Machine)
    requires m1 == Machine(ScoreSet, [Frame(1, ScoreProgram, None, None, None)])
    requires after == Machine(ScoreLooped, [Frame(2, ScoreProgram, None, None, None), Frame(2, ScoreBody, Some(2), Some(3), None)])
    ensures Run(m1, 7) == after
    ensures forall vars :: Unwind(vars, after.stack) == Unwind(vars, [Frame(2, ScoreProgram, None, None, None)])
  {
    ScoreRepeatFacts(m1);
    hide ExecuteBlockLogic, Run, Passes, Step, RunBlocks, Unwind, Advance, Apply;
    RepeatRuns(m1);
    ScoreThreePasses(ScoreSet.(currentBlockId := Some("b2")));
  }

  /** The `repeat` of the example: its block, its count of 3, the six steps of its passes, and the frame below it. */
  lemma ScoreRepeatFacts(m1: Machine)
    requires m1 == Machine(ScoreSet, [Frame(1, ScoreProgram, None, None, None)])
    ensures Clean(m1.state) && |m1.stack| > 0
    ensures m1.stack[|m1.stack| - 1].blockIndex < |m1.stack[|m1.stack| - 1].children|
    ensures Active(m1.stack) == ScoreProgram[1] && ScoreProgram[1].blockType == "repeat"
    ensures HasNonEmptyChildren(ScoreProgram[1]) && ScoreProgram[1].children == ScoreBody && Straight(ScoreBody)
    ensures ScoreProgram[1].id == "b2" && |ScoreBody| == 2
    ensures RepeatPasses(ToNumber(Param(ScoreProgram[1], "times"))) == 3
    ensures LoopCount(ToNumber(Param(ScoreProgram[1], "times"))) == 3
    ensures PassSteps(3, 2) == 6
    ensures Advance(m1.stack) == [Frame(2, ScoreProgram, None, None, None)]
    ensures m1.state.(isRunning := true, currentBlockId := Some("b2")) == ScoreSet.(currentBlockId := Some("b2"))
  {
    assert Straight(ScoreBody);
  }

  lemma ScoreLastStep(after: Machine)
    requires after == Machine(ScoreLooped, [Frame(2, ScoreProgram, None, None, None), Frame(2, ScoreBody, Some(2), Some(3), None)])
    requires forall vars :: Unwind(vars, after.stack) == Unwind(vars, [Frame(2, ScoreProgram, None, None, None)])
    ensures Step(after) == Machine(ScoreLooped.(isFinished := true, isRunning := false, currentBlockId := None), [])
  {
    assert Unwind(after.state.variables, [Frame(2, ScoreProgram, None, None, None)]) == Emptied;
    StepEmptied(after);
  }

  /**
   * The example runs in nine steps: one for `set_var`, one for `repeat`, six for
   * three passes of the body, and one that unwinds and finishes. It prints
   * `> 5`, `> 10`, `> 15` and leaves `score` at 15.
   */
  lemma ScoreExample()
    ensures var done := Run(Initial(ScoreProgram), 9);
      done.state.consoleOutput == ["> 5", "> 10", "> 15"] &&
      done.state.variables == map["score" := Int(15)] &&
      done.state.isFinished && !done.state.isRunning &&
      done.state.currentBlockId == None && done.state.error == None &&
      done.stack == []
  {
    var m1 := Machine(ScoreSet, [Frame(1, ScoreProgram, None, None, None)]);
    var after := Machine(ScoreLooped, [Frame(2, ScoreProgram, None, None, None), Frame(2, ScoreBody, Some(2), Some(3), None)]);
    var done := Machine(ScoreLooped.(isFinished := true, isRunning := false, currentBlockId := None), []);
    ScoreFirstStep();
    ScoreLoop(m1, after);
    ScoreLastStep(after);
    RunThenStep(m1, 7, after);
    StepThenRun(Initial(ScoreProgram), m1, 8, done);
  }
}
