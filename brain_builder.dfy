/**
 * The intelligence model the student configures for the avatar: a tree of
 * success metrics (KPIs), a list of business rules and the decision context.
 * Every handler of the builder returns a new model built from the old one.
 */
module BrainBuilder {
  import opened Wrappers
  import opened Sequences

  /** The three levels used for a rule's priority and for the risk tolerance. */
  datatype Level = Low | Medium | High

  /** A children list, or its absence (`children` undefined in the source). */
  datatype Children = Missing | Listed(nodes: seq<KpiNode>)

  /** A metric (`caption` is the source's `label`, a reserved word here); `children` may be missing, which the editor treats as an empty list. */
  datatype KpiNode = KpiNode(id: string, caption: string, weight: int, children: Children)

  datatype BusinessRule = BusinessRule(id: string, condition: string, action: string, priority: Level, active: bool)

  datatype DecisionContext = DecisionContext(
    allowAutonomousMovement: bool,
    requireHumanApproval: bool,
    temporalMemoryWindow: int,
    riskTolerance: Level)

  datatype IntelligenceModel = IntelligenceModel(kpiTree: seq<KpiNode>, rules: seq<BusinessRule>, context: DecisionContext)

  /** The model the application starts with. */
  const InitialModel := IntelligenceModel(
    [KpiNode("root", "Mission Success", 100, Listed([
      KpiNode("c1", "Survival", 60, Listed([])),
      KpiNode("c2", "Efficiency", 40, Listed([]))]))],
    [BusinessRule("r1", "Health < 20%", "Seek Repair Station", High, true),
     BusinessRule("r2", "Inventory Full", "Return to Base", Medium, true)],
    DecisionContext(true, true, 30, Medium))

  /** `node.children || []`. */
  function Kids(n: KpiNode): seq<KpiNode>
  {
    if n.children.Listed? then n.children.nodes else []
  }

  // ---- views of a tree ----

  /** Every id of the tree, in pre-order. */
  function AllIds(nodes: seq<KpiNode>): seq<string>
  {
    if |nodes| == 0 then [] else IdsOf(nodes[0]) + AllIds(nodes[1..])
  }

  function IdsOf(n: KpiNode): seq<string>
  {
    [n.id] + (if n.children.Listed? then AllIds(n.children.nodes) else [])
  }

  /** A node's own fields. */
  datatype KpiEntry = KpiEntry(id: string, caption: string, weight: int)

  /** Every node's own fields, in pre-order. */
  function Flat(nodes: seq<KpiNode>): seq<KpiEntry>
  {
    if |nodes| == 0 then [] else FlatOf(nodes[0]) + Flat(nodes[1..])
  }

  function FlatOf(n: KpiNode): seq<KpiEntry>
  {
    [KpiEntry(n.id, n.caption, n.weight)] + (if n.children.Listed? then Flat(n.children.nodes) else [])
  }

  /** The first node with `id`, in pre-order. */
  function Find(nodes: seq<KpiNode>, id: string): Option<KpiNode>
  {
    if |nodes| == 0 then None
    else
      var f := FindIn(nodes[0], id);
      if f.Some? then f else Find(nodes[1..], id)
  }

  function FindIn(n: KpiNode, id: string): Option<KpiNode>
  {
    if n.id == id then Some(n)
    else if n.children.Listed? then Find(n.children.nodes, id)
    else None
  }

  /** The tree with every missing children list made an empty one. */
  function Normal(nodes: seq<KpiNode>): (r: seq<KpiNode>)
    ensures |r| == |nodes|
  {
    if |nodes| == 0 then [] else [NormalOne(nodes[0])] + Normal(nodes[1..])
  }

  function NormalOne(n: KpiNode): KpiNode
  {
    n.(children := Listed(if n.children.Listed? then Normal(n.children.nodes) else []))
  }

  /** Every node of the tree has a children list. */
  predicate AllListed(nodes: seq<KpiNode>)
  {
    forall k :: 0 <= k < |nodes| ==> OneListed(nodes[k])
  }

  predicate OneListed(n: KpiNode)
  {
    n.children.Listed? && AllListed(n.children.nodes)
  }

  // ---- addKpiNode ----

  /** The metric the builder adds. */
  function NewMetric(id: string): KpiNode
  {
    KpiNode(id, "New Metric", 50, Listed([]))
  }

  /** `addRecursive`: the new node is appended to the children of each node with `parentId` not below another one. */
  function AddRecursive(nodes: seq<KpiNode>, parentId: string, newNode: KpiNode): (r: seq<KpiNode>)
    ensures |r| == |nodes|
  {
    if |nodes| == 0 then []
    else [AddOne(nodes[0], parentId, newNode)] + AddRecursive(nodes[1..], parentId, newNode)
  }

  function AddOne(n: KpiNode, parentId: string, newNode: KpiNode): KpiNode
  {
    if n.id == parentId then n.(children := Listed(Kids(n) + [newNode]))
    else if n.children.Listed? then n.(children := Listed(AddRecursive(n.children.nodes, parentId, newNode)))
    else n
  }

  /** `addKpiNode(parentId)` with the id the random generator would give. */
  function AddKpiNode(model: IntelligenceModel, parentId: string, id: string): (r: IntelligenceModel)
    ensures r.rules == model.rules && r.context == model.context
  {
    model.(kpiTree := AddRecursive(model.kpiTree, parentId, NewMetric(id)))
  }

  /** The parent, as it is found first, gains the new node as its last child. */
  lemma {:induction false} FindAfterAdd(nodes: seq<KpiNode>, parentId: string, newNode: KpiNode)
    ensures Find(AddRecursive(nodes, parentId, newNode), parentId) ==
      if Find(nodes, parentId).Some? then Some(Appended(Find(nodes, parentId).value, newNode)) else None
  {
    if |nodes| > 0 {
      FindInAfterAdd(nodes[0], parentId, newNode);
      FindAfterAdd(nodes[1..], parentId, newNode);
      assert AddRecursive(nodes, parentId, newNode)[1..] == AddRecursive(nodes[1..], parentId, newNode);
    }
  }

  lemma {:induction false} FindInAfterAdd(n: KpiNode, parentId: string, newNode: KpiNode)
    ensures FindIn(AddOne(n, parentId, newNode), parentId) ==
      if FindIn(n, parentId).Some? then Some(Appended(FindIn(n, parentId).value, newNode)) else None
  {
    if n.id != parentId && n.children.Listed? {
      FindAfterAdd(n.children.nodes, parentId, newNode);
    }
  }

  function Appended(n: KpiNode, newNode: KpiNode): KpiNode
  {
    n.(children := Listed(Kids(n) + [newNode]))
  }

  /** An unknown parent leaves the tree as it is. */
  lemma {:induction false} AddAbsent(nodes: seq<KpiNode>, parentId: string, newNode: KpiNode)
    requires parentId !in AllIds(nodes)
    ensures AddRecursive(nodes, parentId, newNode) == nodes
  {
    if |nodes| > 0 {
      var n := nodes[0];
      assert AllIds(nodes) == IdsOf(n) + AllIds(nodes[1..]);
      if n.children.Listed? {
        AddAbsent(n.children.nodes, parentId, newNode);
      }
      AddAbsent(nodes[1..], parentId, newNode);
    }
  }

  /** Deleting a fresh node after adding it gives back the tree, up to missing children lists: nothing else moved or changed. */
  lemma {:induction false} DeleteUndoesAdd(nodes: seq<KpiNode>, parentId: string, newNode: KpiNode)
    requires newNode.id !in AllIds(nodes)
    ensures DeleteRecursive(AddRecursive(nodes, parentId, newNode), newNode.id) == Normal(nodes)
  {
    if |nodes| > 0 {
      var n := nodes[0];
      var x := newNode.id;
      assert AllIds(nodes) == IdsOf(n) + AllIds(nodes[1..]);
      var a := AddOne(n, parentId, newNode);
      assert AddRecursive(nodes, parentId, newNode) == [a] + AddRecursive(nodes[1..], parentId, newNode);
      DeleteUndoesAdd(nodes[1..], parentId, newNode);
      if n.id == parentId {
        DeleteAppendFresh(Kids(n), newNode);
      } else if n.children.Listed? {
        DeleteUndoesAdd(n.children.nodes, parentId, newNode);
      }
    }
  }

  /** The kids of a matched parent, then the new node, lose the new node again. */
  lemma DeleteAppendFresh(kids: seq<KpiNode>, newNode: KpiNode)
    requires newNode.id !in AllIds(kids)
    ensures DeleteRecursive(kids + [newNode], newNode.id) == Normal(kids)
  {
    DeleteAppend(kids, [newNode], newNode.id);
    DeleteAbsent(kids, newNode.id);
  }

  /**
   * Deleting distributes over concatenation. This and `DeleteIdempotent` and
   * `DeleteKeepsOrder` below mirror the lemmas of the same names about the block
   * forest in `LogicBuilder`: the two editors' recursive deletes have one shape
   * over two node types.
   */
  lemma {:induction false} DeleteAppend(a: seq<KpiNode>, b: seq<KpiNode>, id: string)
    ensures DeleteRecursive(a + b, id) == DeleteRecursive(a, id) + DeleteRecursive(b, id)
    decreases |a|
  {
    if |a| == 0 {
      assert a + b == b;
    } else {
      assert (a + b)[0] == a[0];
      assert (a + b)[1..] == a[1..] + b;
      DeleteAppend(a[1..], b, id);
    }
  }

  // ---- deleteKpiNode ----

  /** `deleteRecursive`: drop the nodes with `id`, then recurse into each survivor, a missing list becoming `[]`. */
  function DeleteRecursive(nodes: seq<KpiNode>, id: string): seq<KpiNode>
  {
    if |nodes| == 0 then []
    else if nodes[0].id == id then DeleteRecursive(nodes[1..], id)
    else [DeleteOne(nodes[0], id)] + DeleteRecursive(nodes[1..], id)
  }

  function DeleteOne(n: KpiNode, id: string): KpiNode
  {
    n.(children := Listed(if n.children.Listed? then DeleteRecursive(n.children.nodes, id) else []))
  }

  /** `deleteKpiNode(id)`. */
  function DeleteKpiNode(model: IntelligenceModel, id: string): (r: IntelligenceModel)
    ensures r.rules == model.rules && r.context == model.context
  {
    model.(kpiTree := DeleteRecursive(model.kpiTree, id))
  }

  /** No node with `id` is left, and every node left has a children list. */
  lemma {:induction false} DeleteRemovesAll(nodes: seq<KpiNode>, id: string)
    ensures id !in AllIds(DeleteRecursive(nodes, id))
    ensures AllListed(DeleteRecursive(nodes, id))
  {
    if |nodes| > 0 {
      var n := nodes[0];
      DeleteRemovesAll(nodes[1..], id);
      if n.id != id {
        var d := DeleteOne(n, id);
        var r := DeleteRecursive(nodes, id);
        assert r == [d] + DeleteRecursive(nodes[1..], id);
        assert AllIds(r) == IdsOf(d) + AllIds(r[1..]);
        if n.children.Listed? {
          DeleteRemovesAll(n.children.nodes, id);
        }
        assert OneListed(d);
        assert forall k :: 1 <= k < |r| ==> r[k] == r[1..][k - 1];
      }
    }
  }

  /** With no node carrying `id`, the deletion only fills in missing children lists. */
  lemma {:induction false} DeleteAbsent(nodes: seq<KpiNode>, id: string)
    requires id !in AllIds(nodes)
    ensures DeleteRecursive(nodes, id) == Normal(nodes)
  {
    if |nodes| > 0 {
      var n := nodes[0];
      assert AllIds(nodes) == IdsOf(n) + AllIds(nodes[1..]);
      if n.children.Listed? {
        DeleteAbsent(n.children.nodes, id);
      }
      DeleteAbsent(nodes[1..], id);
    }
  }

  /** Filling in lists is nothing to do on a tree that has them all. */
  lemma {:induction false} NormalListed(nodes: seq<KpiNode>)
    requires AllListed(nodes)
    ensures Normal(nodes) == nodes
  {
    if |nodes| > 0 {
      assert OneListed(nodes[0]);
      NormalListed(nodes[0].children.nodes);
      NormalListed(nodes[1..]);
    }
  }

  /** Deleting twice is deleting once. */
  lemma DeleteIdempotent(nodes: seq<KpiNode>, id: string)
    ensures DeleteRecursive(DeleteRecursive(nodes, id), id) == DeleteRecursive(nodes, id)
  {
    DeleteRemovesAll(nodes, id);
    DeleteAbsent(DeleteRecursive(nodes, id), id);
    NormalListed(DeleteRecursive(nodes, id));
  }

  /** The surviving nodes keep their own fields and their pre-order. */
  lemma {:induction false} DeleteKeepsOrder(nodes: seq<KpiNode>, id: string)
    ensures IsSubsequence(Flat(DeleteRecursive(nodes, id)), Flat(nodes))
  {
    if |nodes| == 0 {
      SubsequenceEmpty(Flat(nodes));
    } else {
      var n := nodes[0];
      var rest := nodes[1..];
      var e := KpiEntry(n.id, n.caption, n.weight);
      var c := if n.children.Listed? then Flat(n.children.nodes) else [];
      assert Flat(nodes) == ([e] + c) + Flat(rest);
      DeleteKeepsOrder(rest, id);
      if n.id == id {
        SubsequenceLeftPad([e] + c, Flat(DeleteRecursive(rest, id)), Flat(rest));
      } else {
        var d := DeleteOne(n, id);
        var dc := Flat(d.children.nodes);
        if n.children.Listed? {
          DeleteKeepsOrder(n.children.nodes, id);
        } else {
          assert dc == [];
          SubsequenceEmpty(c);
        }
        assert IsSubsequence([e] + dc, [e] + c) by {
          assert ([e] + dc)[1..] == dc;
          assert ([e] + c)[1..] == c;
        }
        SubsequenceAppend([e] + dc, [e] + c, Flat(DeleteRecursive(rest, id)), Flat(rest));
        assert Flat(DeleteRecursive(nodes, id)) == ([e] + dc) + Flat(DeleteRecursive(rest, id));
      }
    }
  }

  // ---- rules ----

  /** The rule the builder adds. */
  function NewRule(id: string): BusinessRule
  {
    BusinessRule(id, "If ...", "Then ...", Medium, true)
  }

  /** `addRule()` with the id the random generator would give. */
  function AddRule(model: IntelligenceModel, id: string): (r: IntelligenceModel)
    ensures |r.rules| == |model.rules| + 1
    ensures r.rules[..|model.rules|] == model.rules
    ensures r.rules[|model.rules|] == NewRule(id)
    ensures r.kpiTree == model.kpiTree && r.context == model.context
  {
    model.(rules := model.rules + [NewRule(id)])
  }

  /** `rules.filter(r => r.id !== id)`. */
  function RulesWithout(rules: seq<BusinessRule>, id: string): (r: seq<BusinessRule>)
    ensures forall x :: x in r <==> x in rules && x.id != id
    ensures IsSubsequence(r, rules)
  {
    if |rules| == 0 then []
    else if rules[0].id == id then
      SubsequenceLeftPad([rules[0]], RulesWithout(rules[1..], id), rules[1..]);
      assert [rules[0]] + rules[1..] == rules;
      RulesWithout(rules[1..], id)
    else
      KeepHead(rules, RulesWithout(rules[1..], id));
      [rules[0]] + RulesWithout(rules[1..], id)
  }

  lemma KeepHead(rules: seq<BusinessRule>, tail: seq<BusinessRule>)
    requires |rules| > 0 && IsSubsequence(tail, rules[1..])
    ensures IsSubsequence([rules[0]] + tail, rules)
  {
    assert ([rules[0]] + tail)[1..] == tail;
  }

  /** The delete button of a rule. */
  function DeleteRule(model: IntelligenceModel, id: string): (r: IntelligenceModel)
    ensures r.kpiTree == model.kpiTree && r.context == model.context
  {
    model.(rules := RulesWithout(model.rules, id))
  }

  /** Deleting a rule just added, under an id no rule had, gives back the model. */
  lemma {:induction false} DeleteUndoesAddRule(model: IntelligenceModel, id: string)
    requires forall k :: 0 <= k < |model.rules| ==> model.rules[k].id != id
    ensures DeleteRule(AddRule(model, id), id) == model
  {
    KeepAllRules(model.rules, id);
    RulesWithoutAppend(model.rules, [NewRule(id)], id);
    assert RulesWithout([NewRule(id)], id) == RulesWithout([], id);
  }

  lemma {:induction false} KeepAllRules(rules: seq<BusinessRule>, id: string)
    requires forall k :: 0 <= k < |rules| ==> rules[k].id != id
    ensures RulesWithout(rules, id) == rules
  {
    if |rules| > 0 {
      KeepAllRules(rules[1..], id);
    }
  }

  lemma {:induction false} RulesWithoutAppend(a: seq<BusinessRule>, b: seq<BusinessRule>, id: string)
    ensures RulesWithout(a + b, id) == RulesWithout(a, id) + RulesWithout(b, id)
    decreases |a|
  {
    if |a| == 0 {
      assert a + b == b;
    } else {
      assert (a + b)[0] == a[0];
      assert (a + b)[1..] == a[1..] + b;
      RulesWithoutAppend(a[1..], b, id);
    }
  }

  // ---- the decision context ----

  /** One field of the context with its new value: the `key` and `value` of `updateContext`. */
  datatype ContextField =
    | AllowAutonomousMovement(allow: bool)
    | RequireHumanApproval(require: bool)
    | TemporalMemoryWindow(window: int)
    | RiskTolerance(level: Level)

  /** The field of the same key as `f`, read from the context. */
  function Read(ctx: DecisionContext, f: ContextField): ContextField
  {
    match f
    case AllowAutonomousMovement(_) => AllowAutonomousMovement(ctx.allowAutonomousMovement)
    case RequireHumanApproval(_) => RequireHumanApproval(ctx.requireHumanApproval)
    case TemporalMemoryWindow(_) => TemporalMemoryWindow(ctx.temporalMemoryWindow)
    case RiskTolerance(_) => RiskTolerance(ctx.riskTolerance)
  }

  predicate SameKey(f: ContextField, g: ContextField)
  {
    f.AllowAutonomousMovement? == g.AllowAutonomousMovement? &&
    f.RequireHumanApproval? == g.RequireHumanApproval? &&
    f.TemporalMemoryWindow? == g.TemporalMemoryWindow? &&
    f.RiskTolerance? == g.RiskTolerance?
  }

  function SetField(ctx: DecisionContext, f: ContextField): DecisionContext
  {
    match f
    case AllowAutonomousMovement(b) => ctx.(allowAutonomousMovement := b)
    case RequireHumanApproval(b) => ctx.(requireHumanApproval := b)
    case TemporalMemoryWindow(n) => ctx.(temporalMemoryWindow := n)
    case RiskTolerance(l) => ctx.(riskTolerance := l)
  }

  /**
   * `updateContext(key, value)`: the named field reads back the new value, every
   * other field reads as before, and writing back the value a field holds
   * changes nothing.
   */
  function UpdateContext(model: IntelligenceModel, f: ContextField): (r: IntelligenceModel)
    ensures r.kpiTree == model.kpiTree && r.rules == model.rules
    ensures forall g :: Read(r.context, g) == if SameKey(f, g) then f else Read(model.context, g)
    ensures Read(model.context, f) == f ==> r == model
  {
    model.(context := SetField(model.context, f))
  }
}
