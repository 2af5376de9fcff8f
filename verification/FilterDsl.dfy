// The filter language: its trees, what makes a node well formed, and the two
// shape walks over a tree.

module FilterDsl {
  import opened Prelude

  type Id = string

  datatype Operator =
    | Equals | NotEquals | Contains | NotContains | StartsWith | EndsWith
    | In | NotIn
    | GreaterThan | GreaterOrEqual | LessThan | LessOrEqual | Between
    | IsEmpty | IsNotEmpty
    | HasAny | HasAll
    | InLastDays | InNextDays

  /** Number of operands; -1 stands for a non-empty list. */
  function Arity(op: Operator): int {
    match op
    case IsEmpty | IsNotEmpty => 0
    case In | NotIn | HasAny | HasAll => -1
    case Between => 2
    case _ => 1
  }

  datatype ActionKind =
    | LeadCreated | FieldChange | StageChange | AssignmentChange | RatingChange
    | Note | CallLogged | WhatsappSent | EmailSent | SmsSent
    | TaskCreated | TaskCompleted | Custom

  /** A time window; `from` and `until` are calendar days counted from a fixed origin. */
  datatype Within = Within(lastDays: Option<int>, from: Option<int>, until: Option<int>) {
    predicate Valid() {
      && (lastDays.Some? ==> 1 <= lastDays.value <= 3650)
      && (lastDays.Some? <==> from.None? && until.None?)
      && (from.Some? && until.Some? ==> from.value <= until.value)
    }
  }

  /** What the two action predicates ask of one timeline entry. */
  datatype ActionQuery = ActionQuery(
    kind: Option<ActionKind>,
    actionType: Option<Id>,
    actor: Option<Id>,
    payloadMatch: seq<(string, Json)>,
    within: Option<Within>)

  datatype GroupOp = And | Or

  datatype FilterNode =
    | Group(combine: GroupOp, children: seq<FilterNode>)
    | FieldRule(key: string, op: Operator, operand: Json)
    | ActionPerformed(query: ActionQuery, minCount: int)
    | ActionNotPerformed(query: ActionQuery)
    | StatusChanged(fromStage: Option<Id>, toStage: Option<Id>, within: Option<Within>)
    | AssigneeChanged(fromMember: Option<Id>, toMember: Option<Id>, within: Option<Within>)

  predicate ArityMatches(op: Operator, operand: Json) {
    match Arity(op)
    case 0 => operand in {Null, Str(""), Arr([]), Obj(map[])}
    case -1 => operand.Arr? && operand.items != []
    case 2 => operand.Arr? && |operand.items| == 2
    case _ => operand != Null
  }

  predicate WindowOk(within: Option<Within>) { within.Some? ==> within.value.Valid() }

  /** What validation of the request body guarantees of every node the compiler sees. */
  predicate WellFormed(node: FilterNode) {
    match node
    case Group(_, children) => forall child | child in children :: WellFormed(child)
    case FieldRule(key, op, operand) => 1 <= |key| <= 64 && ArityMatches(op, operand)
    case ActionPerformed(query, minCount) => 1 <= minCount <= 1000 && WindowOk(query.within)
    case ActionNotPerformed(query) => WindowOk(query.within)
    case StatusChanged(_, _, within) => WindowOk(within)
    case AssigneeChanged(_, _, within) => WindowOk(within)
  }

  // --- tree walks --------------------------------------------------------------

  /** Some node lies `depth` groups below `node`. */
  ghost predicate Reaches(node: FilterNode, depth: nat) {
    depth == 0 || (node.Group? && exists child | child in node.children :: Reaches(child, depth - 1))
  }

  function NodeCount(node: FilterNode): nat
    decreases node, 0
  {
    if node.Group? then 1 + ForestCount(node.children) else 1
  }

  function ForestCount(nodes: seq<FilterNode>): nat
    decreases nodes
  {
    if nodes == [] then 0 else NodeCount(nodes[0]) + ForestCount(nodes[1..])
  }

  /** All nodes of a tree, each before its children. */
  function Preorder(node: FilterNode): seq<FilterNode>
    decreases node, 0
  {
    [node] + if node.Group? then ForestPreorder(node.children) else []
  }

  function ForestPreorder(nodes: seq<FilterNode>): seq<FilterNode>
    decreases nodes
  {
    if nodes == [] then [] else Preorder(nodes[0]) + ForestPreorder(nodes[1..])
  }

  lemma {:induction false} CountIsPreorder(node: FilterNode)
    ensures NodeCount(node) == |Preorder(node)|
    decreases node, 0
  {
    if node.Group? {
      ForestIsPreorder(node.children);
    }
  }

  lemma {:induction false} ForestIsPreorder(nodes: seq<FilterNode>)
    ensures ForestCount(nodes) == |ForestPreorder(nodes)|
    decreases nodes
  {
    if nodes != [] {
      CountIsPreorder(nodes[0]);
      ForestIsPreorder(nodes[1..]);
    }
  }

  /** Operand counts, read by operator. */
  lemma OperandCounts(op: Operator, operand: Json)
    ensures op in {IsEmpty, IsNotEmpty} ==>
      (ArityMatches(op, operand) <==> operand in {Null, Str(""), Arr([]), Obj(map[])})
    ensures op in {In, NotIn, HasAny, HasAll} ==> (ArityMatches(op, operand) <==> operand.Arr? && |operand.items| >= 1)
    ensures op == Between ==> (ArityMatches(op, operand) <==> operand.Arr? && |operand.items| == 2)
    ensures op !in {IsEmpty, IsNotEmpty, In, NotIn, HasAny, HasAll, Between} ==>
      (ArityMatches(op, operand) <==> operand != Null)
  {}

  lemma {:induction false} ForestCountAppend(nodes: seq<FilterNode>, last: FilterNode)
    ensures ForestCount(nodes + [last]) == ForestCount(nodes) + NodeCount(last)
  {
    if nodes == [] {
      assert nodes + [last] == [last] && [last][1..] == [];
    } else {
      ForestCountAppend(nodes[1..], last);
      assert (nodes + [last])[1..] == nodes[1..] + [last];
    }
  }

  /** Counts the nodes of one subtree and finds the greatest depth in it. */
  method Walk(node: FilterNode, depth: nat) returns (count: nat, deepest: nat)
    ensures count == NodeCount(node) == |Preorder(node)|
    ensures depth <= deepest && Reaches(node, deepest - depth)
    ensures forall d: nat :: Reaches(node, d) ==> d <= deepest - depth
    decreases node
  {
    hide Preorder, ForestPreorder;
    CountIsPreorder(node);
    if !node.Group? {
      return 1, depth;
    }
    count, deepest := 1, depth;
    for i := 0 to |node.children|
      invariant count == 1 + ForestCount(node.children[..i])
      invariant depth <= deepest && Reaches(node, deepest - depth)
      invariant forall child, d: nat | child in node.children[..i] ::
                  Reaches(child, d) ==> d + 1 <= deepest - depth
    {
      var child := node.children[i];
      var childCount, childDepth := Walk(child, depth + 1);
      ForestCountAppend(node.children[..i], child);
      assert node.children[..i + 1] == node.children[..i] + [child];
      assert child in node.children && Reaches(node, childDepth - depth);
      count, deepest := count + childCount, Max(deepest, childDepth);
    }
    assert node.children[..|node.children|] == node.children;
  }

  const MAX_DEPTH := 10
  const MAX_NODES := 200

  /** Accepts a tree exactly when it has at most 200 nodes and nothing lies deeper than 10 groups. */
  method ValidateShape(node: FilterNode) returns (accepted: bool)
    ensures accepted <==>
      && |Preorder(node)| <= 200
      && forall d: nat :: Reaches(node, d) ==> d <= 10
  {
    CountIsPreorder(node);
    var count, depth := Walk(node, 0);
    assert Reaches(node, depth - 0);
    accepted := depth <= MAX_DEPTH && count <= MAX_NODES;
  }

  /** `node` mentions `key` in one of its field rules. */
  predicate Mentions(node: FilterNode, key: string) {
    match node
    case Group(_, children) => exists child | child in children :: Mentions(child, key)
    case FieldRule(k, _, _) => k == key
    case _ => false
  }

  ghost predicate MentionedBy(nodes: seq<FilterNode>, key: string) {
    exists node | node in nodes :: Mentions(node, key)
  }

  lemma MentionedByAppend(nodes: seq<FilterNode>, last: FilterNode, key: string)
    ensures MentionedBy(nodes + [last], key) <==> MentionedBy(nodes, key) || Mentions(last, key)
  {
    assert forall node :: node in nodes + [last] <==> node in nodes || node == last;
  }

  method FieldKeysIn(node: FilterNode) returns (keys: set<string>)
    ensures forall key :: key in keys <==> Mentions(node, key)
    decreases node
  {
    match node
    case FieldRule(key, _, _) => keys := {key};
    case Group(_, children) =>
      keys := {};
      for i := 0 to |children|
        invariant forall key :: key in keys <==> MentionedBy(children[..i], key)
      {
        var below := FieldKeysIn(children[i]);
        assert children[..i + 1] == children[..i] + [children[i]];
        forall key { MentionedByAppend(children[..i], children[i], key); }
        keys := keys + below;
      }
      assert children[..|children|] == children;
    case _ => keys := {};
  }
}
