/**
 * The block editor's edits of the program: a new block from a definition, an
 * update of one block's parameters, a deletion of a block with its subtree, an
 * append to a block's children by drag and drop, and the variable list. The
 * recursive edits are functions over the forest; the editor's handlers are
 * methods of `Workspace`, which holds the program and the variable names.
 */
module LogicBuilder {
  import opened Wrappers
  import opened JsValues
  import opened Blocks
  import opened Sequences

  // ---- a new block from a definition ----

  /** The parameters the `forEach` over the inputs assigns: each input's default, a later input of the same name winning. */
  function Defaults(inputs: seq<InputSpec>): map<string, Value>
    decreases |inputs|
  {
    if |inputs| == 0 then map[]
    else Defaults(inputs[..|inputs| - 1])[inputs[|inputs| - 1].name := inputs[|inputs| - 1].defaultValue]
  }

  /** The block `addBlock` and `handleDrop` build: `children` is a (new, empty) array exactly when the type nests. */
  function BlockFor(def: BlockDefinition, id: string): Block
  {
    if def.hasChildren then Nested(id, def.blockType, Defaults(def.inputs), [])
    else Plain(id, def.blockType, Defaults(def.inputs))
  }

  /** The defaults cover exactly the input names. */
  lemma {:induction false} DefaultsKeys(inputs: seq<InputSpec>)
    ensures forall key :: key in Defaults(inputs) <==> exists k :: 0 <= k < |inputs| && inputs[k].name == key
    decreases |inputs|
  {
    if |inputs| > 0 {
      var init := inputs[..|inputs| - 1];
      DefaultsKeys(init);
      forall key ensures key in Defaults(inputs) <==> exists k :: 0 <= k < |inputs| && inputs[k].name == key {
        if key in Defaults(init) {
          var k :| 0 <= k < |init| && init[k].name == key;
          assert inputs[k].name == key;
        }
        if exists k :: 0 <= k < |inputs| && inputs[k].name == key {
          var k :| 0 <= k < |inputs| && inputs[k].name == key;
          if k < |init| {
            assert init[k].name == key;
          }
        }
      }
    }
  }

  /** A name holds the default of the last input that carries it. */
  lemma {:induction false} DefaultsLast(inputs: seq<InputSpec>, k: int)
    requires 0 <= k < |inputs|
    requires forall j :: k < j < |inputs| ==> inputs[j].name != inputs[k].name
    ensures inputs[k].name in Defaults(inputs) && Defaults(inputs)[inputs[k].name] == inputs[k].defaultValue
    decreases |inputs|
  {
    if k < |inputs| - 1 {
      var init := inputs[..|inputs| - 1];
      assert init[k] == inputs[k];
      forall j | k < j < |init| ensures init[j].name != init[k].name {
        assert init[j] == inputs[j];
      }
      DefaultsLast(init, k);
    }
  }

  /** The names of a definition's inputs are pairwise distinct. */
  predicate DistinctInputs(def: BlockDefinition)
  {
    forall j, k :: 0 <= j < k < |def.inputs| ==> def.inputs[j].name != def.inputs[k].name
  }

  /** A new block carries every input's default, and the children list exactly when `hasChildren`. */
  lemma BlockForSpec(def: BlockDefinition, id: string)
    requires DistinctInputs(def)
    ensures var b := BlockFor(def, id);
      b.id == id && b.blockType == def.blockType && (b.Nested? <==> def.hasChildren) && ChildList(b) == [] &&
      (forall key :: key in b.params <==> exists k :: 0 <= k < |def.inputs| && def.inputs[k].name == key) &&
      (forall k :: 0 <= k < |def.inputs| ==> b.params[def.inputs[k].name] == def.inputs[k].defaultValue)
  {
    DefaultsKeys(def.inputs);
    forall k | 0 <= k < |def.inputs| ensures Defaults(def.inputs)[def.inputs[k].name] == def.inputs[k].defaultValue {
      DefaultsLast(def.inputs, k);
    }
  }

  /** Every block type the editor offers has inputs of distinct names. */
  lemma DefinitionsDistinctInputs()
    ensures forall k :: 0 <= k < |BlockDefinitions| ==> DistinctInputs(BlockDefinitions[k])
  {
  }

  /** The block-building code of `addBlock` and `handleDrop`, with its `forEach` over the inputs. */
  method NewBlock(def: BlockDefinition, id: string) returns (b: Block)
    ensures b == BlockFor(def, id)
  {
    var params: map<string, Value> := map[];
    var k := 0;
    while k < |def.inputs|
      invariant 0 <= k <= |def.inputs|
      invariant params == Defaults(def.inputs[..k])
    {
      assert def.inputs[..k + 1][..k] == def.inputs[..k];
      params := params[def.inputs[k].name := def.inputs[k].defaultValue];
      k := k + 1;
    }
    assert def.inputs[..|def.inputs|] == def.inputs;
    if def.hasChildren {
      b := Nested(id, def.blockType, params, []);
    } else {
      b := Plain(id, def.blockType, params);
    }
  }

  // ---- views of a forest: its shape and its blocks in pre-order ----

  /** A block without its parameters. */
  datatype Skeleton = Skeleton(id: string, blockType: string, kids: Option<seq<Skeleton>>)

  function Shapes(bs: seq<Block>): seq<Skeleton>
  {
    if |bs| == 0 then [] else [Shape(bs[0])] + Shapes(bs[1..])
  }

  function Shape(b: Block): Skeleton
  {
    Skeleton(b.id, b.blockType, if b.Nested? then Some(Shapes(b.children)) else None)
  }

  /** One block's own fields. */
  datatype Entry = Entry(id: string, blockType: string, params: map<string, Value>, nested: bool)

  function EntryOf(b: Block): Entry
  {
    Entry(b.id, b.blockType, b.params, b.Nested?)
  }

  /** Every block of the forest, in pre-order. */
  function Flat(bs: seq<Block>): seq<Entry>
  {
    if |bs| == 0 then [] else FlatOf(bs[0]) + Flat(bs[1..])
  }

  function FlatOf(b: Block): seq<Entry>
  {
    [EntryOf(b)] + (if b.Nested? then Flat(b.children) else [])
  }

  /** The ids of every block, in pre-order. */
  function Ids(es: seq<Entry>): seq<string>
  {
    if |es| == 0 then [] else [es[0].id] + Ids(es[1..])
  }

  /** The ids of the blocks that carry a children list. */
  function NestedIds(es: seq<Entry>): seq<string>
  {
    if |es| == 0 then [] else (if es[0].nested then [es[0].id] else []) + NestedIds(es[1..])
  }

  lemma {:induction false} FlatAppend(a: seq<Block>, b: seq<Block>)
    ensures Flat(a + b) == Flat(a) + Flat(b)
    decreases |a|
  {
    if |a| > 0 {
      assert (a + b)[1..] == a[1..] + b;
      FlatAppend(a[1..], b);
    } else {
      assert a + b == b;
    }
  }

  lemma {:induction false} IdsAppend(a: seq<Entry>, b: seq<Entry>)
    ensures Ids(a + b) == Ids(a) + Ids(b)
    decreases |a|
  {
    if |a| > 0 {
      assert (a + b)[1..] == a[1..] + b;
      IdsAppend(a[1..], b);
    } else {
      assert a + b == b;
    }
  }

  lemma {:induction false} NestedIdsAppend(a: seq<Entry>, b: seq<Entry>)
    ensures NestedIds(a + b) == NestedIds(a) + NestedIds(b)
    decreases |a|
  {
    if |a| > 0 {
      assert (a + b)[0] == a[0];
      assert (a + b)[1..] == a[1..] + b;
      NestedIdsAppend(a[1..], b);
    } else {
      assert a + b == b;
    }
  }

  /** The pre-order of a non-empty forest: its first tree, then the rest. */
  lemma FlatCons(bs: seq<Block>)
    requires |bs| > 0
    ensures Flat(bs) == [EntryOf(bs[0])] + ChildFlat(bs[0]) + Flat(bs[1..])
    ensures Ids(Flat(bs)) == [bs[0].id] + Ids(ChildFlat(bs[0])) + Ids(Flat(bs[1..]))
    ensures NestedIds(Flat(bs)) ==
      (if bs[0].Nested? then [bs[0].id] else []) + NestedIds(ChildFlat(bs[0])) + NestedIds(Flat(bs[1..]))
  {
    var c := ChildFlat(bs[0]);
    var r := Flat(bs[1..]);
    assert Flat(bs) == [EntryOf(bs[0])] + c + r;
    ConsIds(EntryOf(bs[0]), c, r);
  }

  lemma ConsIds(e: Entry, c: seq<Entry>, r: seq<Entry>)
    ensures Ids([e] + c + r) == [e.id] + Ids(c) + Ids(r)
    ensures NestedIds([e] + c + r) == (if e.nested then [e.id] else []) + NestedIds(c) + NestedIds(r)
  {
    IdsAppend([e] + c, r);
    NestedIdsAppend([e] + c, r);
    assert ([e] + c)[1..] == c;
  }

  function ChildFlat(b: Block): seq<Entry>
  {
    if b.Nested? then Flat(b.children) else []
  }

  /** The first block with `id`, in pre-order. */
  function FindBlock(bs: seq<Block>, id: string): Option<Block>
  {
    if |bs| == 0 then None
    else
      var f := FindBlockIn(bs[0], id);
      if f.Some? then f else FindBlock(bs[1..], id)
  }

  function FindBlockIn(b: Block, id: string): Option<Block>
  {
    if b.id == id then Some(b)
    else if b.Nested? then FindBlock(b.children, id)
    else None
  }

  // ---- updateBlock ----

  /** `updateRecursive`: the first block on each path whose id matches gets the new parameters, its subtree as it was. */
  function UpdateRecursive(bs: seq<Block>, id: string, params: map<string, Value>): (r: seq<Block>)
    ensures |r| == |bs|
  {
    if |bs| == 0 then []
    else [UpdateOne(bs[0], id, params)] + UpdateRecursive(bs[1..], id, params)
  }

  function UpdateOne(b: Block, id: string, params: map<string, Value>): Block
  {
    if b.id == id then b.(params := params)
    else if b.Nested? then b.(children := UpdateRecursive(b.children, id, params))
    else b
  }

  /** The new parameters at every entry carrying `id`. */
  function SetParams(es: seq<Entry>, id: string, params: map<string, Value>): (r: seq<Entry>)
    ensures |r| == |es|
  {
    if |es| == 0 then [] else [if es[0].id == id then es[0].(params := params) else es[0]] + SetParams(es[1..], id, params)
  }

  lemma {:induction false} SetParamsAppend(a: seq<Entry>, b: seq<Entry>, id: string, params: map<string, Value>)
    ensures SetParams(a + b, id, params) == SetParams(a, id, params) + SetParams(b, id, params)
    decreases |a|
  {
    if |a| > 0 {
      assert (a + b)[0] == a[0];
      assert (a + b)[1..] == a[1..] + b;
      SetParamsAppend(a[1..], b, id, params);
    } else {
      assert a + b == b;
    }
  }

  lemma {:induction false} SetParamsAbsent(es: seq<Entry>, id: string, params: map<string, Value>)
    requires id !in Ids(es)
    ensures SetParams(es, id, params) == es
    decreases |es|
  {
    if |es| > 0 {
      SetParamsAbsent(es[1..], id, params);
    }
  }

  /** Ids, types, nesting and child order are kept: only parameters change. */
  lemma {:induction false} UpdateKeepsShape(bs: seq<Block>, id: string, params: map<string, Value>)
    ensures Shapes(UpdateRecursive(bs, id, params)) == Shapes(bs)
  {
    if |bs| > 0 {
      var b := bs[0];
      if b.id != id && b.Nested? {
        UpdateKeepsShape(b.children, id, params);
      }
      UpdateKeepsShape(bs[1..], id, params);
    }
  }

  /** The block with `id`, as it is found first, carries the new parameters. */
  lemma {:induction false} FindAfterUpdate(bs: seq<Block>, id: string, params: map<string, Value>)
    ensures FindBlock(UpdateRecursive(bs, id, params), id) ==
      if FindBlock(bs, id).Some? then Some(FindBlock(bs, id).value.(params := params)) else None
  {
    if |bs| > 0 {
      var b := bs[0];
      if b.id != id && b.Nested? {
        FindAfterUpdate(b.children, id, params);
      }
      FindAfterUpdate(bs[1..], id, params);
      assert UpdateRecursive(bs, id, params)[1..] == UpdateRecursive(bs[1..], id, params);
    }
  }

  /** An id that occurs nowhere leaves the program as it is. */
  lemma {:induction false} UpdateAbsent(bs: seq<Block>, id: string, params: map<string, Value>)
    requires id !in Ids(Flat(bs))
    ensures UpdateRecursive(bs, id, params) == bs
  {
    if |bs| > 0 {
      FlatCons(bs);
      if bs[0].Nested? {
        UpdateAbsent(bs[0].children, id, params);
      }
      UpdateAbsent(bs[1..], id, params);
    }
  }

  /** With `id` on at most one block, the update changes exactly that block's parameters, wherever it is. */
  lemma {:induction false} UpdateSetsParams(bs: seq<Block>, id: string, params: map<string, Value>)
    requires multiset(Ids(Flat(bs)))[id] <= 1
    ensures Flat(UpdateRecursive(bs, id, params)) == SetParams(Flat(bs), id, params)
  {
    if |bs| > 0 {
      var b := bs[0];
      var c := ChildFlat(b);
      var rest := bs[1..];
      FlatCons(bs);
      assert multiset(Ids(Flat(bs))) == multiset([b.id]) + multiset(Ids(c)) + multiset(Ids(Flat(rest)));
      var r := UpdateRecursive(bs, id, params);
      FlatCons(r);
      assert r[1..] == UpdateRecursive(rest, id, params);
      UpdateSetsParams(rest, id, params);
      SetParamsAppend([EntryOf(b)] + c, Flat(rest), id, params);
      SetParamsAppend([EntryOf(b)], c, id, params);
      if b.id == id {
        assert id !in Ids(c);
        SetParamsAbsent(c, id, params);
      } else if b.Nested? {
        UpdateSetsParams(b.children, id, params);
      }
    }
  }

  // ---- deleteBlock ----

  /** `deleteRecursive`: drop the blocks with `id` at this level, then recurse into each survivor's children. */
  function DeleteRecursive(bs: seq<Block>, id: string): seq<Block>
  {
    if |bs| == 0 then []
    else if bs[0].id == id then DeleteRecursive(bs[1..], id)
    else [DeleteOne(bs[0], id)] + DeleteRecursive(bs[1..], id)
  }

  function DeleteOne(b: Block, id: string): Block
  {
    if b.Nested? then b.(children := DeleteRecursive(b.children, id)) else b
  }

  /** No block with `id` is left, at any depth. */
  lemma {:induction false} DeleteRemovesAll(bs: seq<Block>, id: string)
    ensures id !in Ids(Flat(DeleteRecursive(bs, id)))
  {
    if |bs| > 0 {
      DeleteRemovesAll(bs[1..], id);
      if bs[0].id != id {
        var r := DeleteRecursive(bs, id);
        FlatCons(r);
        assert r[1..] == DeleteRecursive(bs[1..], id);
        if bs[0].Nested? {
          DeleteRemovesAll(bs[0].children, id);
        }
      }
    }
  }

  /** When no block has `id`, nothing is deleted. */
  lemma {:induction false} DeleteAbsent(bs: seq<Block>, id: string)
    requires id !in Ids(Flat(bs))
    ensures DeleteRecursive(bs, id) == bs
  {
    if |bs| > 0 {
      FlatCons(bs);
      if bs[0].Nested? {
        DeleteAbsent(bs[0].children, id);
      }
      DeleteAbsent(bs[1..], id);
    }
  }

  /** Deleting twice is deleting once. */
  lemma DeleteIdempotent(bs: seq<Block>, id: string)
    ensures DeleteRecursive(DeleteRecursive(bs, id), id) == DeleteRecursive(bs, id)
  {
    DeleteRemovesAll(bs, id);
    DeleteAbsent(DeleteRecursive(bs, id), id);
  }

  /** The surviving blocks keep their own fields and their pre-order. */
  lemma {:induction false} DeleteKeepsOrder(bs: seq<Block>, id: string)
    ensures IsSubsequence(Flat(DeleteRecursive(bs, id)), Flat(bs))
  {
    if |bs| == 0 {
      SubsequenceEmpty(Flat(bs));
    } else {
      var b := bs[0];
      var c := ChildFlat(b);
      var rest := bs[1..];
      assert Flat(bs) == ([EntryOf(b)] + c) + Flat(rest);
      DeleteKeepsOrder(rest, id);
      if b.id == id {
        SubsequenceLeftPad([EntryOf(b)] + c, Flat(DeleteRecursive(rest, id)), Flat(rest));
      } else {
        var d := DeleteOne(b, id);
        var dc := ChildFlat(d);
        if b.Nested? {
          DeleteKeepsOrder(b.children, id);
        } else {
          SubsequenceEmpty(c);
        }
        assert IsSubsequence(dc, c);
        assert IsSubsequence([EntryOf(d)] + dc, [EntryOf(b)] + c) by {
          assert EntryOf(d) == EntryOf(b);
          assert ([EntryOf(d)] + dc)[1..] == dc;
          assert ([EntryOf(b)] + c)[1..] == c;
        }
        SubsequenceAppend([EntryOf(d)] + dc, [EntryOf(b)] + c, Flat(DeleteRecursive(rest, id)), Flat(rest));
        assert Flat(DeleteRecursive(bs, id)) == ([EntryOf(d)] + dc) + Flat(DeleteRecursive(rest, id));
      }
    }
  }

  // ---- handleDrop ----

  /** `addToChildren`: the new block is appended to the children of the first matching block with a children list on each path. */
  function AddToChildren(bs: seq<Block>, targetId: string, nb: Block): (r: seq<Block>)
    ensures |r| == |bs|
  {
    if |bs| == 0 then []
    else [AddToOne(bs[0], targetId, nb)] + AddToChildren(bs[1..], targetId, nb)
  }

  function AddToOne(b: Block, targetId: string, nb: Block): Block
  {
    if b.id == targetId && b.Nested? then b.(children := b.children + [nb])
    else if b.Nested? then b.(children := AddToChildren(b.children, targetId, nb))
    else b
  }

  /** A target that is missing, or that has no children list, leaves the program as it is. */
  lemma {:induction false} AddToChildrenAbsent(bs: seq<Block>, targetId: string, nb: Block)
    requires targetId !in NestedIds(Flat(bs))
    ensures AddToChildren(bs, targetId, nb) == bs
  {
    if |bs| > 0 {
      FlatCons(bs);
      if bs[0].Nested? {
        AddToChildrenAbsent(bs[0].children, targetId, nb);
      }
      AddToChildrenAbsent(bs[1..], targetId, nb);
    }
  }

  /** What the append adds to a pre-order: the new block's tree when the target carries a children list. */
  function Added(es: seq<Entry>, targetId: string, nb: Block): multiset<Entry>
  {
    if targetId in NestedIds(es) then multiset(FlatOf(nb)) else multiset{}
  }

  /** The target, as it is found first, gains the new block as its last child when it has a children list. */
  lemma {:induction false} FindAfterAddToChildren(bs: seq<Block>, targetId: string, nb: Block)
    ensures FindBlock(AddToChildren(bs, targetId, nb), targetId) ==
      if FindBlock(bs, targetId).Some? then Some(WithChild(FindBlock(bs, targetId).value, nb)) else None
  {
    if |bs| > 0 {
      var b := bs[0];
      if b.id != targetId && b.Nested? {
        FindAfterAddToChildren(b.children, targetId, nb);
      }
      FindAfterAddToChildren(bs[1..], targetId, nb);
      assert AddToChildren(bs, targetId, nb)[1..] == AddToChildren(bs[1..], targetId, nb);
    }
  }

  function WithChild(b: Block, nb: Block): Block
  {
    if b.Nested? then b.(children := b.children + [nb]) else b
  }

  /** Deleting a fresh block after dropping it gives back the program exactly. */
  lemma {:induction false} DeleteUndoesAddToChildren(bs: seq<Block>, targetId: string, nb: Block)
    requires nb.id !in Ids(Flat(bs))
    ensures DeleteRecursive(AddToChildren(bs, targetId, nb), nb.id) == bs
  {
    if |bs| > 0 {
      var b := bs[0];
      FlatCons(bs);
      var a := AddToOne(b, targetId, nb);
      assert AddToChildren(bs, targetId, nb) == [a] + AddToChildren(bs[1..], targetId, nb);
      DeleteUndoesAddToChildren(bs[1..], targetId, nb);
      if b.id == targetId && b.Nested? {
        DeleteAppendFresh(b.children, nb);
      } else if b.Nested? {
        DeleteUndoesAddToChildren(b.children, targetId, nb);
      }
    }
  }

  /** The children of the target, then the new block, lose the new block again. */
  lemma DeleteAppendFresh(kids: seq<Block>, nb: Block)
    requires nb.id !in Ids(Flat(kids))
    ensures DeleteRecursive(kids + [nb], nb.id) == kids
  {
    DeleteAppend(kids, [nb], nb.id);
    DeleteAbsent(kids, nb.id);
    assert DeleteRecursive([nb], nb.id) == DeleteRecursive([], nb.id);
  }

  lemma {:induction false} DeleteAppend(a: seq<Block>, b: seq<Block>, id: string)
    ensures DeleteRecursive(a + b, id) == DeleteRecursive(a, id) + DeleteRecursive(b, id)
    decreases |a|
  {
    if |a| == 0 {
      assert a + b == b;
    } else {
      assert (a + b)[0] == a[0];
      assert (a + b)[1..] == a[1..] + b;
      DeleteAppend(a[1..], b, id);
    }
  }

  /**
   * With the target's id on at most one block: every block is kept with its own
   * fields, and the new block's tree is added exactly when the target has a
   * children list.
   */
  lemma {:induction false} AddToChildrenBlocks(bs: seq<Block>, targetId: string, nb: Block)
    requires multiset(Ids(Flat(bs)))[targetId] <= 1
    ensures multiset(Flat(AddToChildren(bs, targetId, nb))) == multiset(Flat(bs)) + Added(Flat(bs), targetId, nb)
  {
    if |bs| > 0 {
      AddToChildrenSplit(bs, targetId, nb);
      hide Flat, FlatOf, AddToChildren, AddToOne, Added, Ids;
      var h := FlatOf(bs[0]);
      var t := Flat(bs[1..]);
      AddedSplit(h, t, targetId, nb);
      AddToOneBlocks(bs[0], targetId, nb);
      AddToChildrenBlocks(bs[1..], targetId, nb);
    }
  }

  /** The pre-order of a forest and of its edit, split at the first tree. */
  lemma AddToChildrenSplit(bs: seq<Block>, targetId: string, nb: Block)
    requires |bs| > 0
    ensures Flat(bs) == FlatOf(bs[0]) + Flat(bs[1..])
    ensures Flat(AddToChildren(bs, targetId, nb)) ==
      FlatOf(AddToOne(bs[0], targetId, nb)) + Flat(AddToChildren(bs[1..], targetId, nb))
  {
    var r := AddToChildren(bs, targetId, nb);
    assert r[0] == AddToOne(bs[0], targetId, nb) && r[1..] == AddToChildren(bs[1..], targetId, nb);
  }

  /** With the target's id on at most one block of `h + t`, the additions of the two halves sum. */
  lemma AddedSplit(h: seq<Entry>, t: seq<Entry>, targetId: string, nb: Block)
    requires multiset(Ids(h + t))[targetId] <= 1
    ensures multiset(Ids(h))[targetId] <= 1 && multiset(Ids(t))[targetId] <= 1
    ensures Added(h + t, targetId, nb) == Added(h, targetId, nb) + Added(t, targetId, nb)
  {
    IdCounts(h, t, targetId);
    NestedIdsAppend(h, t);
    if targetId in Ids(h) {
      NestedIdsInIds(t, targetId);
    } else {
      NestedIdsInIds(h, targetId);
    }
  }

  lemma IdCounts(h: seq<Entry>, t: seq<Entry>, x: string)
    ensures multiset(Ids(h + t))[x] == multiset(Ids(h))[x] + multiset(Ids(t))[x]
    ensures x in Ids(h) ==> multiset(Ids(h))[x] >= 1
  {
    IdsAppend(h, t);
  }

  /** `AddToChildrenBlocks` for one tree. */
  lemma {:induction false} AddToOneBlocks(b: Block, targetId: string, nb: Block)
    requires multiset(Ids(FlatOf(b)))[targetId] <= 1
    ensures multiset(FlatOf(AddToOne(b, targetId, nb))) == multiset(FlatOf(b)) + Added(FlatOf(b), targetId, nb)
  {
    hide Flat, FlatOf, AddToChildren, AddToOne, Added, Ids;
    if !b.Nested? {
      PlainSplit(b, targetId, nb);
    } else if b.id == targetId {
      TargetSplit(b, nb);
    } else {
      OtherSplit(b, targetId, nb);
      AddToChildrenBlocks(b.children, targetId, nb);
    }
  }

  /** A block without a children list is left as it is. */
  lemma PlainSplit(b: Block, targetId: string, nb: Block)
    requires !b.Nested?
    ensures AddToOne(b, targetId, nb) == b
    ensures Added(FlatOf(b), targetId, nb) == multiset{}
  {
    assert FlatOf(b) == [EntryOf(b)];
    assert NestedIds([EntryOf(b)]) == [] + NestedIds([]);
  }

  /** The target with a children list gains the new block's tree after its own. */
  lemma TargetSplit(b: Block, nb: Block)
    requires b.Nested?
    ensures FlatOf(AddToOne(b, b.id, nb)) == FlatOf(b) + FlatOf(nb)
    ensures Added(FlatOf(b), b.id, nb) == multiset(FlatOf(nb))
  {
    FlatAppend(b.children, [nb]);
    assert Flat([nb]) == FlatOf(nb) + Flat([]);
    NestedIdsAppend([EntryOf(b)], Flat(b.children));
    assert NestedIds([EntryOf(b)]) == [b.id] + NestedIds([]);
  }

  /** Any other block with a children list passes the edit to its children. */
  lemma OtherSplit(b: Block, targetId: string, nb: Block)
    requires b.Nested? && b.id != targetId
    ensures FlatOf(AddToOne(b, targetId, nb)) == [EntryOf(b)] + Flat(AddToChildren(b.children, targetId, nb))
    ensures FlatOf(b) == [EntryOf(b)] + Flat(b.children)
    ensures multiset(Ids(FlatOf(b)))[targetId] == multiset(Ids(Flat(b.children)))[targetId]
    ensures Added(FlatOf(b), targetId, nb) == Added(Flat(b.children), targetId, nb)
  {
    var c := Flat(b.children);
    assert ([EntryOf(b)] + c)[1..] == c;
    assert Ids([EntryOf(b)] + c) == [b.id] + Ids(c);
    assert NestedIds([EntryOf(b)] + c) == [b.id] + NestedIds(c);
  }

  /** An id of a block with children is an id of a block. */
  lemma {:induction false} NestedIdsInIds(es: seq<Entry>, x: string)
    requires x !in Ids(es)
    ensures x !in NestedIds(es)
    decreases |es|
  {
    if |es| > 0 {
      NestedIdsInIds(es[1..], x);
    }
  }

  /** The payload of a drag: a new block of some type from the toolbox, or a block already placed. */
  datatype DragData = NewBlockDrag(defType: string) | MoveExisting(id: string)

  // ---- createVariable ----

  /** A prompt answer is added only when it is non-empty and not yet listed. */
  function AddVariable(variables: seq<string>, answer: Option<string>): (r: seq<string>)
    ensures NoDuplicateNames(variables) ==> NoDuplicateNames(r)
    ensures answer.Some? && answer.value != "" && answer.value !in variables ==> r == variables + [answer.value]
    ensures !(answer.Some? && answer.value != "" && answer.value !in variables) ==> r == variables
  {
    if answer.Some? && answer.value != "" && answer.value !in variables then variables + [answer.value]
    else variables
  }

  predicate NoDuplicateNames(s: seq<string>)
  {
    forall j, k :: 0 <= j < k < |s| ==> s[j] != s[k]
  }

  // ---- the editor's state ----

  /** The program being edited and the variable names offered in the editor. */
  class Workspace {
    var program: seq<Block>
    var variables: seq<string>

    constructor(program: seq<Block>, variables: seq<string>)
      ensures this.program == program && this.variables == variables
    {
      this.program := program;
      this.variables := variables;
    }

    /** `addBlock(def)`: one new block at the end of the top level. */
    method AddBlock(def: BlockDefinition, id: string)
      modifies this
      ensures program == old(program) + [BlockFor(def, id)]
      ensures variables == old(variables)
    {
      var b := NewBlock(def, id);
      program := program + [b];
    }

    /** `updateBlock(id, params)`. */
    method UpdateBlock(id: string, params: map<string, Value>)
      modifies this
      ensures program == UpdateRecursive(old(program), id, params)
      ensures variables == old(variables)
    {
      program := UpdateRecursive(program, id, params);
    }

    /** `deleteBlock(id)`. */
    method DeleteBlock(id: string)
      modifies this
      ensures program == DeleteRecursive(old(program), id)
      ensures variables == old(variables)
    {
      program := DeleteRecursive(program, id);
    }

    /**
     * `handleDrop(targetId, data)`: a new block of a known type goes to the end of
     * the target's children; a move of a placed block, or an unknown type, changes nothing.
     */
    method HandleDrop(targetId: string, data: DragData, id: string)
      modifies this
      ensures data.NewBlockDrag? && FindDefinition(data.defType).Some? ==>
        program == AddToChildren(old(program), targetId, BlockFor(FindDefinition(data.defType).value, id))
      ensures !(data.NewBlockDrag? && FindDefinition(data.defType).Some?) ==> program == old(program)
      ensures variables == old(variables)
    {
      if data.NewBlockDrag? {
        var def := FindDefinition(data.defType);
        if def.None? {
          return;
        }
        var b := NewBlock(def.value, id);
        program := AddToChildren(program, targetId, b);
      }
    }

    /** `handleMainDrop`: a new block of a known type dropped on the canvas goes to the end of the top level. */
    method HandleMainDrop(data: DragData, id: string)
      modifies this
      ensures data.NewBlockDrag? && FindDefinition(data.defType).Some? ==>
        program == old(program) + [BlockFor(FindDefinition(data.defType).value, id)]
      ensures !(data.NewBlockDrag? && FindDefinition(data.defType).Some?) ==> program == old(program)
      ensures variables == old(variables)
    {
      if data.NewBlockDrag? {
        var def := FindDefinition(data.defType);
        if def.Some? {
          AddBlock(def.value, id);
        }
      }
    }

    /** `createVariable()` with the prompt's answer, `None` for a cancelled prompt. */
    method CreateVariable(answer: Option<string>)
      modifies this
      ensures variables == AddVariable(old(variables), answer)
      ensures program == old(program)
    {
      if answer.Some? && answer.value != "" && answer.value !in variables {
        variables := variables + [answer.value];
      }
    }
  }
}
