/**
 * `generatePython`: lowering a block forest to script text. A pre-order scan
 * collects the variable names, a fixed preamble and one `name = 0` line per name
 * follow, then one line per block, indented four spaces per nesting level.
 */
module CodeGen {
  import opened Text
  import opened JsValues
  import opened Blocks

  /** The names one block contributes to the scan: assignment targets and condition variables. */
  function OwnNames(b: Block): seq<Value>
  {
    if b.blockType == "set_var" || b.blockType == "change_var" then [Param(b, "name")]
    else if b.blockType == "if" || b.blockType == "repeat_until" then [Param(b, "condition_var")]
    else []
  }

  /** Every name the scan meets, with repetitions, in pre-order. */
  function ReferencedNames(bs: seq<Block>): seq<Value>
  {
    if |bs| == 0 then [] else ReferencedNamesOf(bs[0]) + ReferencedNames(bs[1..])
  }

  function ReferencedNamesOf(b: Block): seq<Value>
  {
    OwnNames(b) + (if b.Nested? then ReferencedNames(b.children) else [])
  }

  /** Insertion into a JavaScript `Set`, element by element: first occurrences, in order. */
  function Dedup<T(==)>(s: seq<T>): seq<T>
    decreases |s|
  {
    if |s| == 0 then []
    else
      var prefix := Dedup(s[..|s| - 1]);
      if s[|s| - 1] in prefix then prefix else prefix + [s[|s| - 1]]
  }

  predicate NoDuplicates<T(==)>(s: seq<T>)
  {
    forall i, j :: 0 <= i < j < |s| ==> s[i] != s[j]
  }

  /** The position of the first occurrence of `x`. */
  function FirstIndex<T(==)>(s: seq<T>, x: T): (r: nat)
    requires x in s
    ensures r < |s| && s[r] == x && x !in s[..r]
  {
    if s[0] == x then 0 else 1 + FirstIndex(s[1..], x)
  }

  /** The set `definedVariables` in iteration order. */
  function DefinedVariables(program: seq<Block>): seq<Value>
  {
    Dedup(ReferencedNames(program))
  }

  lemma {:induction false} DedupMembers<T>(s: seq<T>)
    ensures forall x :: x in Dedup(s) <==> x in s
    decreases |s|
  {
    if |s| > 0 {
      DedupMembers(s[..|s| - 1]);
      assert s == s[..|s| - 1] + [s[|s| - 1]];
    }
  }

  lemma {:induction false} DedupNoDuplicates<T>(s: seq<T>)
    ensures NoDuplicates(Dedup(s))
    decreases |s|
  {
    if |s| > 0 {
      DedupNoDuplicates(s[..|s| - 1]);
    }
  }

  /** The deduplicated list keeps the order in which the names were first met. */
  lemma {:induction false} DedupFirstSeenOrder<T>(s: seq<T>, i: nat, j: nat)
    requires i < j < |Dedup(s)|
    ensures Dedup(s)[i] in s && Dedup(s)[j] in s
    ensures FirstIndex(s, Dedup(s)[i]) < FirstIndex(s, Dedup(s)[j])
    decreases |s|
  {
    DedupMembers(s);
    var n := |s| - 1;
    var init := s[..n];
    var p := Dedup(init);
    DedupMembers(init);
    assert s == init + [s[n]];
    if s[n] in p {
      DedupFirstSeenOrder(init, i, j);
      FirstIndexPrefix(init, s[n], p[i]);
      FirstIndexPrefix(init, s[n], p[j]);
    } else {
      assert Dedup(s) == p + [s[n]];
      assert i < |p|;
      DedupMember(init, p[i]);
      FirstIndexPrefix(init, s[n], p[i]);
      if j < |p| {
        DedupFirstSeenOrder(init, i, j);
        FirstIndexPrefix(init, s[n], p[j]);
      } else {
        assert Dedup(s)[j] == s[n];
        assert s[n] !in init;
        FirstIndexLast(init, s[n]);
      }
    }
  }

  lemma DedupMember<T>(s: seq<T>, x: T)
    requires x in Dedup(s)
    ensures x in s
  {
    DedupMembers(s);
  }

  lemma FirstIndexPrefix<T>(init: seq<T>, last: T, x: T)
    requires x in init
    ensures x in init + [last] && FirstIndex(init + [last], x) == FirstIndex(init, x)
  {
    var k := FirstIndex(init, x);
    var s := init + [last];
    assert s[..k] == init[..k];
    FirstIndexUnique(s, x, k);
  }

  lemma FirstIndexLast<T>(init: seq<T>, last: T)
    requires last !in init
    ensures last in init + [last] && FirstIndex(init + [last], last) == |init|
  {
    var s := init + [last];
    assert s[..|init|] == init;
    FirstIndexUnique(s, last, |init|);
  }

  lemma {:induction false} FirstIndexUnique<T>(s: seq<T>, x: T, k: nat)
    requires k < |s| && s[k] == x && x !in s[..k]
    ensures FirstIndex(s, x) == k
  {
    if k > 0 {
      assert s[0] != x by { assert s[0] == s[..k][0]; }
      assert s[1..][..k - 1] == s[..k][1..];
      FirstIndexUnique(s[1..], x, k - 1);
    }
  }

  /** The declarations the generator emits, each name once, in first-seen order, exactly for the referenced names. */
  lemma DefinedVariablesSpec(program: seq<Block>)
    ensures NoDuplicates(DefinedVariables(program))
    ensures forall v :: v in DefinedVariables(program) <==> v in ReferencedNames(program)
    ensures forall i, j :: 0 <= i < j < |DefinedVariables(program)| ==>
      DefinedVariables(program)[i] in ReferencedNames(program) &&
      DefinedVariables(program)[j] in ReferencedNames(program) &&
      FirstIndex(ReferencedNames(program), DefinedVariables(program)[i]) <
      FirstIndex(ReferencedNames(program), DefinedVariables(program)[j])
  {
    var s := ReferencedNames(program);
    DedupMembers(s);
    DedupNoDuplicates(s);
    forall i, j | 0 <= i < j < |Dedup(s)|
      ensures Dedup(s)[i] in s && Dedup(s)[j] in s && FirstIndex(s, Dedup(s)[i]) < FirstIndex(s, Dedup(s)[j])
    {
      DedupFirstSeenOrder(s, i, j);
    }
  }

  /** `print` emits its message unquoted when it names a collected variable or reads as a number. */
  predicate PrintsBare(msg: Value, defined: seq<Value>)
  {
    msg in defined || ToNumber(msg) != NaN
  }

  /** The text of one block's line, without indentation (`processBlock`'s switch). */
  function LineText(b: Block, defined: seq<Value>): string
  {
    match b.blockType
    case "start" => "# Program Start"
    case "print" =>
      var msg := Param(b, "message");
      if PrintsBare(msg, defined) then "print(" + ToStr(msg) + ")"
      else "print(\"" + ToStr(msg) + "\")"
    case "wait" => "time.sleep(" + ToStr(Param(b, "seconds")) + ")"
    case "move" => "avatar.move(\"" + ToStr(Param(b, "direction")) + "\")"
    case "set_var" => ToStr(Param(b, "name")) + " = " + ToStr(Param(b, "value"))
    case "change_var" => ToStr(Param(b, "name")) + " += " + ToStr(Param(b, "value"))
    case "repeat" => "for i in range(" + ToStr(Param(b, "times")) + "):"
    case "repeat_until" =>
      "while not (" + ToStr(Param(b, "condition_var")) + " " + ToStr(Param(b, "operator")) + " " +
      ToStr(Param(b, "value")) + "):"
    case "if" =>
      "if " + ToStr(Param(b, "condition_var")) + " " + ToStr(Param(b, "operator")) + " " +
      ToStr(Param(b, "value")) + ":"
    case _ => "# Unknown block " + b.blockType
  }

  function Indentation(depth: nat): string
  {
    Repeat("    ", depth)
  }

  /** `processBlock(block, indent)`: the block's line, then its children one level deeper. */
  function ProcessBlock(b: Block, indent: nat, defined: seq<Value>): string
  {
    Indentation(indent) + LineText(b, defined) + "\n" +
    (if HasNonEmptyChildren(b) then ProcessBlocks(b.children, indent + 1, defined) else "")
  }

  function ProcessBlocks(bs: seq<Block>, indent: nat, defined: seq<Value>): string
  {
    if |bs| == 0 then "" else ProcessBlock(bs[0], indent, defined) + ProcessBlocks(bs[1..], indent, defined)
  }


  function DeclarationLines(vars: seq<Value>): string
  {
    if |vars| == 0 then "" else ToStr(vars[0]) + " = 0\n" + DeclarationLines(vars[1..])
  }

  /** `generatePython()`. */
  function GeneratePython(program: seq<Block>): string
  {
    var defined := DefinedVariables(program);
    Preamble +
    (if |defined| > 0 then "# Initialize variables\n" + DeclarationLines(defined) else "") +
    "\n" + ProcessBlocks(program, 0, defined)
  }

  // ---- The line structure of the generated text ----

  /** A block together with its nesting depth, as the pre-order walk meets it. */
  datatype Placed = Placed(block: Block, depth: nat)

  function Flatten(bs: seq<Block>, depth: nat): seq<Placed>
  {
    if |bs| == 0 then [] else FlattenBlock(bs[0], depth) + Flatten(bs[1..], depth)
  }

  function FlattenBlock(b: Block, depth: nat): seq<Placed>
  {
    [Placed(b, depth)] + (if b.Nested? then Flatten(b.children, depth + 1) else [])
  }

  function PlacedLines(ps: seq<Placed>, defined: seq<Value>): (r: seq<string>)
    ensures |r| == |ps|
    ensures forall k :: 0 <= k < |ps| ==> r[k] == Indentation(ps[k].depth) + LineText(ps[k].block, defined)
  {
    if |ps| == 0 then [] else [Indentation(ps[0].depth) + LineText(ps[0].block, defined)] + PlacedLines(ps[1..], defined)
  }

  function DeclarationSection(vars: seq<Value>): (r: seq<string>)
  {
    if |vars| == 0 then [] else ["# Initialize variables"] + DeclarationList(vars)
  }

  function DeclarationList(vars: seq<Value>): (r: seq<string>)
    ensures |r| == |vars|
    ensures forall k :: 0 <= k < |vars| ==> r[k] == ToStr(vars[k]) + " = 0"
  {
    if |vars| == 0 then [] else [ToStr(vars[0]) + " = 0"] + DeclarationList(vars[1..])
  }

  /** The fixed lines before the declarations: a banner, the `time` import and the avatar setup. */
  const PreambleLines: seq<string> := ["# Generated Python Code", "import time", "", "# Setup", "avatar = Avatar()"]
  const Preamble: string := Unlines(PreambleLines)

  /** The generated script as a list of lines. */
  function GeneratedLines(program: seq<Block>): seq<string>
  {
    var defined := DefinedVariables(program);
    PreambleLines + DeclarationSection(defined) + [""] + PlacedLines(Flatten(program, 0), defined)
  }

  lemma {:induction false} UnlinesAppend(a: seq<string>, b: seq<string>)
    ensures Unlines(a + b) == Unlines(a) + Unlines(b)
  {
    if |a| > 0 {
      assert (a + b)[1..] == a[1..] + b;
      UnlinesAppend(a[1..], b);
    } else {
      assert a + b == b;
    }
  }

  lemma {:induction false} PlacedLinesAppend(a: seq<Placed>, b: seq<Placed>, defined: seq<Value>)
    ensures PlacedLines(a + b, defined) == PlacedLines(a, defined) + PlacedLines(b, defined)
  {
  }

  lemma {:induction false} ProcessBlocksLines(bs: seq<Block>, indent: nat, defined: seq<Value>)
    ensures ProcessBlocks(bs, indent, defined) == Unlines(PlacedLines(Flatten(bs, indent), defined))
    decreases bs, 1
  {
    if |bs| > 0 {
      ProcessBlockLines(bs[0], indent, defined);
      ProcessBlocksLines(bs[1..], indent, defined);
      PlacedLinesAppend(FlattenBlock(bs[0], indent), Flatten(bs[1..], indent), defined);
      UnlinesAppend(PlacedLines(FlattenBlock(bs[0], indent), defined), PlacedLines(Flatten(bs[1..], indent), defined));
    }
  }

  lemma {:induction false} ProcessBlockLines(b: Block, indent: nat, defined: seq<Value>)
    ensures ProcessBlock(b, indent, defined) == Unlines(PlacedLines(FlattenBlock(b, indent), defined))
    decreases b, 0
  {
    var head := [Placed(b, indent)];
    var rest := if b.Nested? then Flatten(b.children, indent + 1) else [];
    PlacedLinesAppend(head, rest, defined);
    UnlinesAppend(PlacedLines(head, defined), PlacedLines(rest, defined));
    if b.Nested? {
      ProcessBlocksLines(b.children, indent + 1, defined);
    }
  }

  lemma {:induction false} DeclarationLinesUnlines(vars: seq<Value>)
    ensures DeclarationLines(vars) == Unlines(DeclarationList(vars))
  {
    if |vars| > 0 {
      DeclarationLinesUnlines(vars[1..]);
    }
  }

  /**
   * The generated text is, line by line, the preamble, the declarations, one blank
   * line, and then one line per block in pre-order, indented four spaces per level.
   */
  lemma GeneratedText(program: seq<Block>)
    ensures GeneratePython(program) == Unlines(GeneratedLines(program))
  {
    var defined := DefinedVariables(program);
    ProcessBlocksLines(program, 0, defined);
    DeclarationSectionText(defined);
    AssembleLines(PreambleLines, DeclarationSection(defined), PlacedLines(Flatten(program, 0), defined));
  }

  lemma AssembleLines(head: seq<string>, middle: seq<string>, body: seq<string>)
    ensures Unlines(head + middle + [""] + body) == Unlines(head) + Unlines(middle) + "\n" + Unlines(body)
  {
    UnlinesAppend(head + middle, [""] + body);
    UnlinesAppend(head, middle);
    assert ([""] + body)[1..] == body;
    assert head + middle + [""] + body == (head + middle) + ([""] + body);
  }

  lemma DeclarationSectionText(vars: seq<Value>)
    ensures Unlines(DeclarationSection(vars)) ==
      (if |vars| > 0 then "# Initialize variables\n" + DeclarationLines(vars) else "")
  {
    DeclarationLinesUnlines(vars);
    if |vars| > 0 {
      UnlinesAppend(["# Initialize variables"], DeclarationList(vars));
    }
  }

  /** One body line per block, whatever the program. */
  lemma {:induction false} FlattenCount(bs: seq<Block>, depth: nat)
    ensures |Flatten(bs, depth)| == CountBlocks(bs)
    decreases bs, 1
  {
    if |bs| > 0 {
      FlattenBlockCount(bs[0], depth);
      FlattenCount(bs[1..], depth);
    }
  }

  lemma {:induction false} FlattenBlockCount(b: Block, depth: nat)
    ensures |FlattenBlock(b, depth)| == CountBlock(b)
    decreases b, 0
  {
    if b.Nested? {
      FlattenCount(b.children, depth + 1);
    }
  }

  /** Where the body starts: after the preamble, the declaration section and one blank line. */
  function BodyStart(program: seq<Block>): nat
  {
    |PreambleLines| + |DeclarationSection(DefinedVariables(program))| + 1
  }

  /**
   * Every referenced name is declared `= 0` before the first body line, and the
   * section header appears exactly when there is something to declare.
   */
  lemma DeclaredBeforeBody(program: seq<Block>)
    ensures |GeneratedLines(program)| == BodyStart(program) + CountBlocks(program)
    ensures forall v :: v in ReferencedNames(program) ==>
      exists k :: |PreambleLines| < k < BodyStart(program) && GeneratedLines(program)[k] == ToStr(v) + " = 0"
    ensures (ReferencedNames(program) == []) <==> BodyStart(program) == |PreambleLines| + 1
    ensures ReferencedNames(program) != [] ==> GeneratedLines(program)[|PreambleLines|] == "# Initialize variables"
  {
    var defined := DefinedVariables(program);
    GeneratedLength(program);
    DeclarationHeader(program);
    DedupMembers(ReferencedNames(program));
    hide GeneratedLines, Flatten, PlacedLines, DeclarationList, FirstIndex;
    forall v | v in ReferencedNames(program)
      ensures exists k :: |PreambleLines| < k < BodyStart(program) && GeneratedLines(program)[k] == ToStr(v) + " = 0"
    {
      var i := FirstIndex(defined, v);
      DeclarationAt(program, i);
    }
    if ReferencedNames(program) != [] {
      assert ReferencedNames(program)[0] in defined;
    }
  }

  lemma GeneratedLength(program: seq<Block>)
    ensures |GeneratedLines(program)| == BodyStart(program) + CountBlocks(program)
  {
    FlattenCount(program, 0);
  }

  lemma DeclarationHeader(program: seq<Block>)
    ensures DefinedVariables(program) != [] ==> GeneratedLines(program)[|PreambleLines|] == "# Initialize variables"
  {
  }

  /** The declaration of the `i`-th defined name sits `i` lines below the section header. */
  lemma DeclarationAt(program: seq<Block>, i: nat)
    requires i < |DefinedVariables(program)|
    ensures |PreambleLines| + 1 + i < BodyStart(program)
    ensures GeneratedLines(program)[|PreambleLines| + 1 + i] == ToStr(DefinedVariables(program)[i]) + " = 0"
  {
    var defined := DefinedVariables(program);
    hide Flatten, PlacedLines;
    assert GeneratedLines(program)[|PreambleLines| + 1 + i] == DeclarationSection(defined)[1 + i];
  }
}
