/**
 * The block program: block instances forming an ordered forest, the static block
 * definitions that give each type its inputs and defaults, and the run state the
 * block engine reports.
 */
module Blocks {
  import opened Wrappers
  import opened JsValues

  /**
   * A block instance. `Nested` is a block whose object carries a `children` array
   * (possibly empty); `Plain` is one without that property.
   */
  datatype Block =
    | Plain(id: string, blockType: string, params: map<string, Value>)
    | Nested(id: string, blockType: string, params: map<string, Value>, children: seq<Block>)

  /** `block.params[key]`: a missing key reads as `undefined`. */
  function Param(b: Block, key: string): Value
  {
    if key in b.params then b.params[key] else Undefined
  }

  /** The children list, empty for a block without one. */
  function ChildList(b: Block): seq<Block>
  {
    if b.Nested? then b.children else []
  }

  /** `block.children && block.children.length > 0`. */
  predicate HasNonEmptyChildren(b: Block)
  {
    b.Nested? && |b.children| > 0
  }

  /** Number of blocks in a forest, counting every descendant. */
  function CountBlocks(bs: seq<Block>): nat
  {
    if |bs| == 0 then 0 else CountBlock(bs[0]) + CountBlocks(bs[1..])
  }

  function CountBlock(b: Block): nat
  {
    1 + (if b.Nested? then CountBlocks(b.children) else 0)
  }

  datatype Category = Event | Control | Action | VariableCategory | Math | Logic

  datatype InputKind = TextInput | NumberInput | SelectInput | VariableInput

  datatype InputSpec = InputSpec(
    name: string,
    kind: InputKind,
    caption: Option<string>,
    options: Option<seq<string>>,
    defaultValue: Value)

  /** A block type: whether it nests children, and its inputs in display order. */
  datatype BlockDefinition = BlockDefinition(
    blockType: string,
    category: Category,
    caption: string,
    color: string,
    icon: Option<string>,
    hasChildren: bool,
    inputs: seq<InputSpec>)

  /** The table of block types the editor offers. */
  const BlockDefinitions: seq<BlockDefinition> := [
    BlockDefinition("start", Event, "On Start", "bg-yellow-500", Some("Play"), false, []),
    BlockDefinition("repeat", Control, "Repeat", "bg-orange-500", None, true, [
      InputSpec("times", NumberInput, Some("times"), None, Number(3))]),
    BlockDefinition("if", Control, "If", "bg-orange-500", None, true, [
      InputSpec("condition_var", VariableInput, Some("Variable"), None, Str("score")),
      InputSpec("operator", SelectInput, Some("is"), Some([">", "<", "=="]), Str(">")),
      InputSpec("value", NumberInput, Some("Value"), None, Number(10))]),
    BlockDefinition("print", Action, "Print", "bg-blue-500", None, false, [
      InputSpec("message", TextInput, None, None, Str("Hello!"))]),
    BlockDefinition("move", Action, "Move Avatar", "bg-blue-500", None, false, [
      InputSpec("direction", SelectInput, None, Some(["Forward", "Back", "Left", "Right"]), Str("Forward"))]),
    BlockDefinition("wait", Action, "Wait", "bg-blue-400", None, false, [
      InputSpec("seconds", NumberInput, Some("seconds"), None, Number(1))]),
    BlockDefinition("set_var", VariableCategory, "Set Variable", "bg-rose-500", None, false, [
      InputSpec("name", VariableInput, Some("Name"), None, Str("score")),
      InputSpec("value", NumberInput, Some("to"), None, Number(0))]),
    BlockDefinition("change_var", VariableCategory, "Change Variable", "bg-rose-500", None, false, [
      InputSpec("name", VariableInput, Some("Name"), None, Str("score")),
      InputSpec("value", NumberInput, Some("by"), None, Number(1))])
  ]

  /** `BLOCK_DEFINITIONS.find(d => d.type === t)`: the first definition of that type. */
  function FindDefinitionFrom(defs: seq<BlockDefinition>, t: string): (r: Option<BlockDefinition>)
    ensures r.Some? ==> r.value in defs && r.value.blockType == t
    ensures r.None? <==> forall k :: 0 <= k < |defs| ==> defs[k].blockType != t
  {
    if |defs| == 0 then None
    else if defs[0].blockType == t then Some(defs[0])
    else FindDefinitionFrom(defs[1..], t)
  }

  function FindDefinition(t: string): Option<BlockDefinition>
  {
    FindDefinitionFrom(BlockDefinitions, t)
  }

  /** The run state the block engine reports after every step. */
  datatype RuntimeState = RuntimeState(
    variables: map<string, Num>,
    consoleOutput: seq<string>,
    currentBlockId: Option<string>,
    isRunning: bool,
    isFinished: bool,
    error: Option<string>)
}
