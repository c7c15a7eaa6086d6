/** Structural validation of an isolation forest (shared/ml/model.go) and the inference walk
    that relies on it (edge/agent/detector/ml.go). */
module IsolationTree {
  import opened Common

  const MAX_TREES := 1000
  const MAX_NODES_PER_TREE := 2048
  const MAX_TOTAL_NODES := 100000
  const MAX_TREE_DEPTH := 50

  /** IEEE 754 values, as far as `<` and finiteness go. */
  datatype Float = Finite(v: real) | PosInf | NegInf | NaN

  predicate Less(a: Float, b: Float) {
    match (a, b)
    case (Finite(x), Finite(y)) => x < y
    case (NegInf, Finite(_)) => true
    case (NegInf, PosInf) => true
    case (Finite(_), PosInf) => true
    case _ => false
  }

  datatype Node = Node(feature: int, split: Float, left: int, right: int, size: int) {
    predicate IsLeaf() { left == -1 && right == -1 }
  }

  datatype Tree = Tree(root: int, nodes: seq<Node>)

  datatype Error =
    | EmptyTrees | ExcessiveTreeCount | ExcessiveNodeCount | InvalidTreeRoot
    | MalformedLeaf | InvalidSplit | InvalidChild | InvalidFeature
    | ExcessiveDepth | CycleDetected | UnreachableNodes

  // ---- What a valid tree is ------------------------------------------------

  predicate InRange(nodes: seq<Node>, v: int) { 0 <= v < |nodes| }

  predicate Edge(nodes: seq<Node>, a: int, b: int) {
    InRange(nodes, a) && !nodes[a].IsLeaf() && (b == nodes[a].left || b == nodes[a].right)
  }

  /** A nonempty walk along edges; `|p| - 1` is its length. */
  predicate Path(nodes: seq<Node>, p: seq<int>) {
    |p| > 0 && InRange(nodes, p[0]) && forall i :: 0 <= i < |p| - 1 ==> Edge(nodes, p[i], p[i + 1])
  }

  predicate PathTo(nodes: seq<Node>, root: int, v: int, p: seq<int>) {
    Path(nodes, p) && p[0] == root && p[|p| - 1] == v
  }

  ghost predicate Reachable(nodes: seq<Node>, root: int, v: int) {
    exists p :: PathTo(nodes, root, v, p)
  }


  /** A binary tree rooted at `root` with every node at depth at most MAX_TREE_DEPTH. */
  ghost predicate BoundedTree(nodes: seq<Node>, root: int) {
    && (forall v :: InRange(nodes, v) ==> Reachable(nodes, root, v))
    && (forall a :: !Edge(nodes, a, root))
    && (forall a, b, v :: Edge(nodes, a, v) && Edge(nodes, b, v) ==> a == b)
    && (forall p :: Path(nodes, p) && p[0] == root ==> |p| - 1 <= MAX_TREE_DEPTH)
  }

  /** Children of internal nodes exist and differ. */
  ghost predicate Linked(nodes: seq<Node>) {
    forall v :: InRange(nodes, v) && !nodes[v].IsLeaf() ==>
      InRange(nodes, nodes[v].left) && InRange(nodes, nodes[v].right) && nodes[v].left != nodes[v].right
  }

  function NodeError(node: Node, dims: int, count: int): Option<Error> {
    if node.IsLeaf() then
      if node.feature != -1 || node.size < 1 then Some(MalformedLeaf)
      else if !node.split.Finite? then Some(InvalidSplit)
      else None
    else
      if !(0 <= node.left < count) || !(0 <= node.right < count) || node.left == node.right then Some(InvalidChild)
      else if !(0 <= node.feature < dims) then Some(InvalidFeature)
      else if !node.split.Finite? then Some(InvalidSplit)
      else None
  }

  ghost predicate NodesOk(dims: int, nodes: seq<Node>) {
    forall v :: InRange(nodes, v) ==> NodeError(nodes[v], dims, |nodes|).None?
  }

  ghost predicate TreeOk(dims: int, t: Tree) {
    0 < |t.nodes| <= MAX_NODES_PER_TREE && InRange(t.nodes, t.root) && NodesOk(dims, t.nodes) &&
    BoundedTree(t.nodes, t.root)
  }

  function TotalNodes(trees: seq<Tree>): nat {
    if trees == [] then 0 else TotalNodes(trees[..|trees| - 1]) + |trees[|trees| - 1].nodes|
  }

  ghost predicate ForestOk(dims: int, trees: seq<Tree>) {
    0 < |trees| <= MAX_TREES && TotalNodes(trees) <= MAX_TOTAL_NODES &&
    forall i :: 0 <= i < |trees| ==> TreeOk(dims, trees[i])
  }

  // ---- The depth-first search ----------------------------------------------

  datatype Entry = Entry(index: int, depth: nat)

  /** Ghost record of the search: expanded nodes, and the parent and depth each visited node was found with. */
  datatype Trail = Trail(done: set<int>, parent: map<int, int>, depth: map<int, nat>)

  predicate OnStack(stack: seq<Entry>, v: int) {
    exists i :: 0 <= i < |stack| && stack[i].index == v
  }

  /** Visited nodes are the expanded ones and those on the stack, and carry a depth. */
  ghost predicate Covered(nodes: seq<Node>, visited: seq<bool>, stack: seq<Entry>, t: Trail) {
    && |visited| == |nodes|
    && (forall v :: v in t.depth <==> InRange(nodes, v) && visited[v])
    && (forall v :: v in t.depth <==> v in t.done || OnStack(stack, v))
  }

  /** The stack holds each waiting node once, with its depth. */
  ghost predicate Waiting(stack: seq<Entry>, t: Trail) {
    && (forall i :: 0 <= i < |stack| ==>
          stack[i].index in t.depth && stack[i].index !in t.done && stack[i].depth == t.depth[stack[i].index])
    && (forall i, j :: 0 <= i < j < |stack| ==> stack[i].index != stack[j].index)
  }

  /** Every visited node but the root has an expanded parent, one level up. */
  ghost predicate Parented(nodes: seq<Node>, root: int, t: Trail) {
    && root in t.depth && t.depth[root] == 0
    && (forall v :: v in t.done ==> v in t.depth && t.depth[v] <= MAX_TREE_DEPTH)
    && (forall v :: v in t.depth && v != root ==>
          v in t.parent && t.parent[v] in t.done && Edge(nodes, t.parent[v], v) &&
          t.parent[v] in t.depth && t.depth[v] == t.depth[t.parent[v]] + 1)
  }

  /** Expanded nodes own all their children. */
  ghost predicate Owned(nodes: seq<Node>, root: int, t: Trail) {
    forall a, c :: a in t.done && Edge(nodes, a, c) ==>
      c != root && c in t.depth && c in t.parent && t.parent[c] == a
  }

  predicate Degrees(nodes: seq<Node>, root: int, visited: seq<bool>, inDegree: seq<int>) {
    |visited| == |inDegree| == |nodes| &&
    forall v :: 0 <= v < |nodes| ==> inDegree[v] == if visited[v] && v != root then 1 else 0
  }

  ghost predicate Search(nodes: seq<Node>, root: int, visited: seq<bool>, inDegree: seq<int>,
                         stack: seq<Entry>, t: Trail) {
    InRange(nodes, root) && Covered(nodes, visited, stack, t) && Waiting(stack, t) && Parented(nodes, root, t) &&
    Owned(nodes, root, t) && Degrees(nodes, root, visited, inDegree)
  }

  /** Every visited node is reached by a path as long as its recorded depth. */
  lemma {:induction false} TrailPath(nodes: seq<Node>, root: int, visited: seq<bool>, inDegree: seq<int>,
                                     stack: seq<Entry>, t: Trail, v: int) returns (p: seq<int>)
    requires Search(nodes, root, visited, inDegree, stack, t) && v in t.depth
    ensures PathTo(nodes, root, v, p) && |p| - 1 == t.depth[v]
    decreases t.depth[v]
  {
    hide Covered, Waiting, Owned, Degrees;
    if v == root {
      p := [root];
    } else {
      var q := TrailPath(nodes, root, visited, inDegree, stack, t, t.parent[v]);
      p := q + [v];
    }
  }

  /** A path from the root that stays among expanded nodes ends at the depth recorded for its end. */
  lemma {:induction false} PathDepth(nodes: seq<Node>, root: int, visited: seq<bool>, inDegree: seq<int>,
                                     t: Trail, p: seq<int>)
    requires Search(nodes, root, visited, inDegree, [], t)
    requires Path(nodes, p) && p[0] == root
    ensures p[|p| - 1] in t.depth && p[|p| - 1] in t.done && t.depth[p[|p| - 1]] == |p| - 1
  {
    if |p| > 1 {
      PathDepth(nodes, root, visited, inDegree, t, p[..|p| - 1]);
      assert Edge(nodes, p[|p| - 2], p[|p| - 1]);
    }
  }

  /** The edge from `a` to `c` enters the root, or a node that has another parent. */
  ghost predicate SecondParent(nodes: seq<Node>, root: int, a: int, c: int) {
    Edge(nodes, a, c) && (c == root || exists b :: b != a && Edge(nodes, b, c))
  }

  /** Reaching a visited node from a node not yet expanded shows a second parent, or a parent of the root. */
  lemma RevisitIsNoTree(nodes: seq<Node>, root: int, visited: seq<bool>, inDegree: seq<int>,
                        stack: seq<Entry>, t: Trail, a: int, c: int)
    requires Search(nodes, root, visited, inDegree, stack, t)
    requires a !in t.done && Edge(nodes, a, c) && c in t.depth
    ensures SecondParent(nodes, root, a, c) && !BoundedTree(nodes, root)
  {
    if c != root {
      assert Edge(nodes, t.parent[c], c) && t.parent[c] != a;
    }
  }

  /** When the search ends with every node visited, the nodes form a bounded tree. */
  lemma FinishedIsTree(nodes: seq<Node>, root: int, visited: seq<bool>, inDegree: seq<int>, t: Trail)
    requires Search(nodes, root, visited, inDegree, [], t)
    requires forall v :: InRange(nodes, v) ==> visited[v]
    ensures BoundedTree(nodes, root)
  {
    forall v | InRange(nodes, v) ensures Reachable(nodes, root, v) {
      var p := TrailPath(nodes, root, visited, inDegree, [], t, v);
    }
    forall p | Path(nodes, p) && p[0] == root ensures |p| - 1 <= MAX_TREE_DEPTH {
      PathDepth(nodes, root, visited, inDegree, t, p);
      var v := p[|p| - 1];
      assert Parented(nodes, root, t) && v in t.done;
    }
    forall a, v | Edge(nodes, a, v) ensures a in t.done {
      assert visited[a];
    }
  }

  predicate TooLong(nodes: seq<Node>, root: int, p: seq<int>) {
    Path(nodes, p) && p[0] == root && |p| - 1 > MAX_TREE_DEPTH
  }

  lemma DeepIsNoTree(nodes: seq<Node>, root: int, visited: seq<bool>, inDegree: seq<int>,
                     stack: seq<Entry>, t: Trail, v: int)
    requires Search(nodes, root, visited, inDegree, stack, t)
    requires v in t.depth && t.depth[v] > MAX_TREE_DEPTH
    ensures (exists p :: TooLong(nodes, root, p)) && !BoundedTree(nodes, root)
  {
    var p := TrailPath(nodes, root, visited, inDegree, stack, t, v);
    assert TooLong(nodes, root, p);
  }

  lemma UnvisitedIsUnreachable(nodes: seq<Node>, root: int, visited: seq<bool>, inDegree: seq<int>, t: Trail, v: int)
    requires Search(nodes, root, visited, inDegree, [], t)
    requires InRange(nodes, v) && !visited[v]
    ensures !Reachable(nodes, root, v) && !BoundedTree(nodes, root)
  {
    forall p | PathTo(nodes, root, v, p) ensures false {
      PathDepth(nodes, root, visited, inDegree, t, p);
    }
  }

  function Expand(t: Trail, a: int, left: int, right: int): Trail
    requires a in t.depth
  {
    Trail(t.done + {a}, t.parent[left := a][right := a],
          t.depth[left := t.depth[a] + 1][right := t.depth[a] + 1])
  }

  /** Moving the top entry from the stack to the expanded nodes, in exchange for `more`, keeps the cover
      when `more` is exactly what was newly visited. */
  lemma OnStackMoves(rest: seq<Entry>, e: Entry, more: seq<Entry>, v: int)
    ensures OnStack(rest + [e], v) <==> OnStack(rest, v) || v == e.index
    ensures OnStack(rest + more, v) <==> OnStack(rest, v) || OnStack(more, v)
  {
    assert (rest + [e])[|rest|] == e;
    if OnStack(rest, v) {
      var i :| 0 <= i < |rest| && rest[i].index == v;
      assert (rest + [e])[i].index == v && (rest + more)[i].index == v;
    }
    if OnStack(more, v) {
      var i :| 0 <= i < |more| && more[i].index == v;
      assert (rest + more)[|rest| + i].index == v;
    }
  }

  /** Expanding a popped internal node whose children are both new keeps the search invariant. */
  lemma ExpandKeepsSearch(nodes: seq<Node>, root: int, visited: seq<bool>, inDegree: seq<int>,
                          rest: seq<Entry>, e: Entry, t: Trail)
    requires Search(nodes, root, visited, inDegree, rest + [e], t)
    requires Linked(nodes) && e.depth <= MAX_TREE_DEPTH && InRange(nodes, e.index)
    requires var node := nodes[e.index]; !node.IsLeaf() && !visited[node.left] && !visited[node.right]
    ensures e.index in t.depth
    ensures var l, r := nodes[e.index].left, nodes[e.index].right;
            Search(nodes, root, visited[l := true][r := true], inDegree[l := 1][r := 1],
                   rest + [Entry(l, e.depth + 1), Entry(r, e.depth + 1)], Expand(t, e.index, l, r))
  {
    var a, l, r := e.index, nodes[e.index].left, nodes[e.index].right;
    TopOfStack(nodes, root, visited, inDegree, rest, e, t);
    hide Covered, Waiting, Parented, Owned, Degrees, Linked;
    ChildrenAreNew(nodes, a);
    ExpandKeepsCover(nodes, visited, rest, e, t, l, r);
    ExpandKeepsWaiting(rest, e, t, l, r);
    ExpandKeepsParents(nodes, root, t, a);
    ExpandKeepsDegrees(nodes, root, visited, inDegree, l, r);
  }

  /** In a linked array an internal node has two different children, in range. */
  lemma ChildrenAreNew(nodes: seq<Node>, a: int)
    requires Linked(nodes) && InRange(nodes, a) && !nodes[a].IsLeaf()
    ensures InRange(nodes, nodes[a].left) && InRange(nodes, nodes[a].right) && nodes[a].left != nodes[a].right
    ensures Edge(nodes, a, nodes[a].left) && Edge(nodes, a, nodes[a].right)
  {
  }

  lemma ExpandKeepsCover(nodes: seq<Node>, visited: seq<bool>, rest: seq<Entry>, e: Entry, t: Trail, l: int, r: int)
    requires Covered(nodes, visited, rest + [e], t) && e.index in t.depth
    requires InRange(nodes, l) && InRange(nodes, r)
    ensures Covered(nodes, visited[l := true][r := true], rest + [Entry(l, e.depth + 1), Entry(r, e.depth + 1)],
                    Expand(t, e.index, l, r))
  {
    hide OnStack;
    var more := [Entry(l, e.depth + 1), Entry(r, e.depth + 1)];
    var t' := Expand(t, e.index, l, r);
    forall v ensures v in t'.depth <==> v in t'.done || OnStack(rest + more, v) {
      OnStackMoves(rest, e, more, v);
      OnStackPair(more, v);
    }
  }

  lemma ExpandKeepsWaiting(rest: seq<Entry>, e: Entry, t: Trail, l: int, r: int)
    requires Waiting(rest + [e], t) && e.index in t.depth && e.depth == t.depth[e.index]
    requires l !in t.depth && r !in t.depth && l != r && forall v :: v in t.done ==> v in t.depth
    ensures Waiting(rest + [Entry(l, e.depth + 1), Entry(r, e.depth + 1)], Expand(t, e.index, l, r))
  {
    var stack, stack' := rest + [e], rest + [Entry(l, e.depth + 1), Entry(r, e.depth + 1)];
    assert stack[|rest|] == e;
    assert forall i :: 0 <= i < |rest| ==> stack[i] == rest[i] == stack'[i];
  }

  lemma ExpandKeepsDegrees(nodes: seq<Node>, root: int, visited: seq<bool>, inDegree: seq<int>, l: int, r: int)
    requires Degrees(nodes, root, visited, inDegree) && InRange(nodes, l) && InRange(nodes, r) && l != root && r != root
    ensures Degrees(nodes, root, visited[l := true][r := true], inDegree[l := 1][r := 1])
  {
  }

  lemma ExpandKeepsParents(nodes: seq<Node>, root: int, t: Trail, a: int)
    requires Parented(nodes, root, t) && Owned(nodes, root, t)
    requires Linked(nodes) && InRange(nodes, a) && !nodes[a].IsLeaf()
    requires a in t.depth && a !in t.done && t.depth[a] <= MAX_TREE_DEPTH
    requires nodes[a].left !in t.depth && nodes[a].right !in t.depth
    ensures var t' := Expand(t, a, nodes[a].left, nodes[a].right);
            Parented(nodes, root, t') && Owned(nodes, root, t')
  {
    assert root in t.depth;
    hide Parented, Owned, Linked, Edge, Expand;
    ChildrenAreNew(nodes, a);
    ExpandKeepsParented(nodes, root, t, a, nodes[a].left, nodes[a].right);
    ExpandKeepsOwned(nodes, root, t, a, nodes[a].left, nodes[a].right);
  }

  /** The new nodes have the expanded one as parent, one level up; the others keep theirs. */
  lemma ExpandKeepsParented(nodes: seq<Node>, root: int, t: Trail, a: int, l: int, r: int)
    requires Parented(nodes, root, t) && a in t.depth && t.depth[a] <= MAX_TREE_DEPTH
    requires InRange(nodes, a) && !nodes[a].IsLeaf() && InRange(nodes, l) && InRange(nodes, r)
    requires l == nodes[a].left && r == nodes[a].right && l !in t.depth && r !in t.depth
    ensures Parented(nodes, root, Expand(t, a, l, r))
  {
    var t' := Expand(t, a, l, r);
    assert Edge(nodes, a, l) && Edge(nodes, a, r);
    hide Edge;
    forall v | v in t'.depth && v != root
      ensures v in t'.parent && t'.parent[v] in t'.done && Edge(nodes, t'.parent[v], v)
      ensures t'.parent[v] in t'.depth && t'.depth[v] == t'.depth[t'.parent[v]] + 1
    {
      if v == l || v == r {
        assert t'.parent[v] == a;
      } else {
        assert v in t.depth && t'.parent[v] == t.parent[v] && t.parent[v] in t.depth;
      }
    }
  }

  /** Expanding a node makes it the parent of both its children and touches no other expanded node's. */
  lemma ExpandKeepsOwned(nodes: seq<Node>, root: int, t: Trail, a: int, l: int, r: int)
    requires Owned(nodes, root, t) && root in t.depth
    requires InRange(nodes, a) && !nodes[a].IsLeaf() && a in t.depth
    requires l == nodes[a].left && r == nodes[a].right && l !in t.depth && r !in t.depth
    ensures Owned(nodes, root, Expand(t, a, l, r))
  {
    var t' := Expand(t, a, l, r);
    forall b, c | b in t'.done && Edge(nodes, b, c)
      ensures c != root && c in t'.depth && c in t'.parent && t'.parent[c] == b
    {
      if b == a { assert c == l || c == r; }
      else {
        hide Edge;
        assert b in t.done && c in t.depth;
      }
    }
  }

  lemma OnStackPair(more: seq<Entry>, v: int)
    requires |more| == 2
    ensures OnStack(more, v) <==> v == more[0].index || v == more[1].index
  {
  }

  /** Popping a leaf keeps the search invariant. */
  lemma LeafKeepsSearch(nodes: seq<Node>, root: int, visited: seq<bool>, inDegree: seq<int>,
                        rest: seq<Entry>, e: Entry, t: Trail)
    requires Search(nodes, root, visited, inDegree, rest + [e], t)
    requires e.depth <= MAX_TREE_DEPTH && InRange(nodes, e.index) && nodes[e.index].IsLeaf()
    ensures Search(nodes, root, visited, inDegree, rest, t.(done := t.done + {e.index}))
  {
    var stack, t' := rest + [e], t.(done := t.done + {e.index});
    assert stack[|rest|] == e;
    assert forall i :: 0 <= i < |rest| ==> stack[i] == rest[i];
    forall v ensures v in t'.depth <==> v in t'.done || OnStack(rest, v) {
      OnStackMoves(rest, e, [], v);
    }
  }

  /** What the search invariant says about the entry on top of the stack. */
  lemma TopOfStack(nodes: seq<Node>, root: int, visited: seq<bool>, inDegree: seq<int>,
                   rest: seq<Entry>, e: Entry, t: Trail)
    requires Search(nodes, root, visited, inDegree, rest + [e], t)
    ensures |visited| == |inDegree| == |nodes| && InRange(nodes, e.index)
    ensures e.index in t.depth && e.index !in t.done && e.depth == t.depth[e.index]
    ensures forall v :: InRange(nodes, v) ==> (visited[v] <==> v in t.depth)
    ensures forall v :: InRange(nodes, v) ==> inDegree[v] == if visited[v] && v != root then 1 else 0
  {
    assert (rest + [e])[|rest|] == e;
  }

  function Indices(nodes: seq<Node>): set<int> {
    set v | 0 <= v < |nodes| && InRange(nodes, v)
  }

  lemma IndicesHave(nodes: seq<Node>, v: int)
    requires InRange(nodes, v)
    ensures v in Indices(nodes)
  {
  }

  lemma TopEntry(nodes: seq<Node>, root: int, visited: seq<bool>, inDegree: seq<int>,
                 rest: seq<Entry>, e: Entry, t: Trail)
    requires Search(nodes, root, visited, inDegree, rest + [e], t)
    ensures |visited| == |inDegree| == |nodes| && InRange(nodes, e.index)
    ensures e.index in t.depth && e.index !in t.done && e.depth == t.depth[e.index]
  {
    TopOfStack(nodes, root, visited, inDegree, rest, e, t);
  }

  /** A child is visited exactly when the trail knows it, and no unvisited node has been counted. */
  lemma ChildState(nodes: seq<Node>, root: int, visited: seq<bool>, inDegree: seq<int>,
                   rest: seq<Entry>, e: Entry, t: Trail, v: int)
    requires Search(nodes, root, visited, inDegree, rest + [e], t) && InRange(nodes, v)
    ensures |visited| == |inDegree| == |nodes| && (visited[v] <==> v in t.depth)
    ensures inDegree[v] == if visited[v] && v != root then 1 else 0
  {
    TopOfStack(nodes, root, visited, inDegree, rest, e, t);
  }

  /** Before the first step only the root is visited. */
  lemma SearchStarts(nodes: seq<Node>, root: int)
    requires InRange(nodes, root)
    ensures Search(nodes, root, seq(|nodes|, _ => false)[root := true], seq(|nodes|, _ => 0),
                   [Entry(root, 0)], Trail({}, map[], map[root := 0]))
  {
    assert [Entry(root, 0)][0].index == root;
  }

  /** The graph check accepts exactly the bounded trees, on every node array, cyclic ones included,
      and each error names a defect that is there. */
  method CheckGraph(nodes: seq<Node>, root: int) returns (e: Option<Error>)
    requires InRange(nodes, root) && Linked(nodes)
    ensures e.None? <==> BoundedTree(nodes, root)
    ensures e.Some? ==> e.value in {ExcessiveDepth, CycleDetected, UnreachableNodes}
    ensures e == Some(ExcessiveDepth) ==> exists p :: TooLong(nodes, root, p)
    ensures e == Some(CycleDetected) ==> exists a, c :: SecondParent(nodes, root, a, c)
    ensures e == Some(UnreachableNodes) ==> exists v :: InRange(nodes, v) && !Reachable(nodes, root, v)
  {
    hide Search, BoundedTree, Path, TooLong, OnStack, Reachable, SecondParent, Edge, Linked, Indices;
    var inDegree := new int[|nodes|](_ => 0);
    var visited := new bool[|nodes|](_ => false);
    var stack := [Entry(root, 0)];
    visited[root] := true;
    ghost var trail := Trail({}, map[], map[root := 0]);
    SearchStarts(nodes, root);
    assert visited[..] == seq(|nodes|, _ => false)[root := true];
    assert inDegree[..] == seq(|nodes|, _ => 0);

    while |stack| > 0
      invariant Search(nodes, root, visited[..], inDegree[..], stack, trail)
      decreases Indices(nodes) - trail.done
    {
      var curr := stack[|stack| - 1];
      ghost var seen, degree, t := visited[..], inDegree[..], trail;
      assert stack == stack[..|stack| - 1] + [curr];
      stack := stack[..|stack| - 1];
      TopEntry(nodes, root, seen, degree, stack, curr, t);
      IndicesHave(nodes, curr.index);

      if curr.depth > MAX_TREE_DEPTH {
        DeepIsNoTree(nodes, root, seen, degree, stack + [curr], t, curr.index);
        return Some(ExcessiveDepth);
      }

      var node := nodes[curr.index];
      if !node.IsLeaf() {
        ChildrenAreNew(nodes, curr.index);
        ChildState(nodes, root, seen, degree, stack, curr, t, node.left);
        ChildState(nodes, root, seen, degree, stack, curr, t, node.right);
        inDegree[node.left] := inDegree[node.left] + 1;
        if inDegree[node.left] > 1 || visited[node.left] {
          RevisitIsNoTree(nodes, root, seen, degree, stack + [curr], t, curr.index, node.left);
          return Some(CycleDetected);
        }
        visited[node.left] := true;

        inDegree[node.right] := inDegree[node.right] + 1;
        if inDegree[node.right] > 1 || visited[node.right] {
          RevisitIsNoTree(nodes, root, seen, degree, stack + [curr], t, curr.index, node.right);
          return Some(CycleDetected);
        }
        visited[node.right] := true;

        ExpandKeepsSearch(nodes, root, seen, degree, stack, curr, t);
        ghost var rest := stack;
        stack := stack + [Entry(node.left, curr.depth + 1)];
        stack := stack + [Entry(node.right, curr.depth + 1)];
        assert stack == rest + [Entry(node.left, curr.depth + 1), Entry(node.right, curr.depth + 1)];
        trail := Expand(t, curr.index, node.left, node.right);
        assert visited[..] == seen[node.left := true][node.right := true];
        assert inDegree[..] == degree[node.left := 1][node.right := 1];
      } else {
        LeafKeepsSearch(nodes, root, seen, degree, stack, curr, t);
        trail := t.(done := t.done + {curr.index});
      }
    }

    for i := 0 to |nodes|
      invariant forall v :: 0 <= v < i ==> visited[v]
    {
      if !visited[i] {
        UnvisitedIsUnreachable(nodes, root, visited[..], inDegree[..], trail, i);
        return Some(UnreachableNodes);
      }
    }
    FinishedIsTree(nodes, root, visited[..], inDegree[..], trail);
    return None;
  }

  // ---- Forest validation ---------------------------------------------------

  /** Reports the first defective node. */
  method CheckNodes(dims: int, nodes: seq<Node>) returns (e: Option<Error>)
    ensures e.None? <==> NodesOk(dims, nodes)
    ensures e.Some? ==> exists v :: InRange(nodes, v) && NodeError(nodes[v], dims, |nodes|) == e &&
                                    forall u :: 0 <= u < v ==> NodeError(nodes[u], dims, |nodes|).None?
  {
    for i := 0 to |nodes|
      invariant forall u :: 0 <= u < i ==> NodeError(nodes[u], dims, |nodes|).None?
    {
      var node := nodes[i];
      if node.IsLeaf() {
        if node.feature != -1 { return Some(MalformedLeaf); }
        if node.size < 1 { return Some(MalformedLeaf); }
        if !node.split.Finite? { return Some(InvalidSplit); }
      } else {
        if node.left < 0 || node.left >= |nodes| { return Some(InvalidChild); }
        if node.right < 0 || node.right >= |nodes| { return Some(InvalidChild); }
        if node.left == node.right { return Some(InvalidChild); }
        if node.feature < 0 || node.feature >= dims { return Some(InvalidFeature); }
        if !node.split.Finite? { return Some(InvalidSplit); }
      }
    }
    return None;
  }

  /** What a node must be: a leaf has no feature, at least one sample and a finite value; an inner node has two
      different children in the tree, a feature of the model and a finite split value. */
  lemma NodeIsOkIff(node: Node, dims: int, count: int)
    ensures NodeError(node, dims, count).None? <==>
      if node.left == -1 && node.right == -1 then node.feature == -1 && node.size >= 1 && node.split.Finite?
      else 0 <= node.left < count && 0 <= node.right < count && node.left != node.right
           && 0 <= node.feature < dims && node.split.Finite?
  {
  }

  /** The limits: 1000 trees, 2048 nodes in a tree, 100000 in all, depth 50. */
  lemma ForestIsOkIff(dims: int, trees: seq<Tree>)
    ensures ForestOk(dims, trees) <==>
      && 1 <= |trees| <= 1000 && TotalNodes(trees) <= 100000
      && forall i :: 0 <= i < |trees| ==>
           && 1 <= |trees[i].nodes| <= 2048 && 0 <= trees[i].root < |trees[i].nodes| && NodesOk(dims, trees[i].nodes)
           && BoundedTree(trees[i].nodes, trees[i].root)
  {
    hide NodesOk, BoundedTree, TotalNodes;
  }

  lemma TotalNodesAdds(trees: seq<Tree>, t: Tree)
    ensures TotalNodes(trees + [t]) == TotalNodes(trees) + |t.nodes|
  {
    assert (trees + [t])[..|trees|] == trees;
  }

  lemma DepthIsAtMostFifty(nodes: seq<Node>, root: int, p: seq<int>)
    requires BoundedTree(nodes, root) && Path(nodes, p) && p[0] == root
    ensures |p| <= 51
  {
  }

  lemma {:induction false} TotalOfPrefix(trees: seq<Tree>, i: nat)
    requires i <= |trees|
    ensures TotalNodes(trees[..i]) <= TotalNodes(trees)
  {
    if i == |trees| {
      assert trees[..i] == trees;
    } else {
      assert trees[..|trees| - 1][..i] == trees[..i];
      TotalOfPrefix(trees[..|trees| - 1], i);
    }
  }

  /** Validation of the trees accepts exactly the forests of bounded trees within the size limits. */
  method ValidateForest(dims: int, trees: seq<Tree>) returns (e: Option<Error>)
    ensures e.None? <==> ForestOk(dims, trees)
  {
    hide BoundedTree, InRange;
    if |trees| == 0 { return Some(EmptyTrees); }
    if |trees| > MAX_TREES { return Some(ExcessiveTreeCount); }
    var totalNodes := 0;
    for i := 0 to |trees|
      invariant totalNodes == TotalNodes(trees[..i]) <= MAX_TOTAL_NODES
      invariant forall k :: 0 <= k < i ==> TreeOk(dims, trees[k])
    {
      var tree := trees[i];
      var nodeCount := |tree.nodes|;
      assert trees[..i + 1][..i] == trees[..i];
      if nodeCount == 0 { assert !TreeOk(dims, trees[i]); return Some(EmptyTrees); }
      if nodeCount > MAX_NODES_PER_TREE { assert !TreeOk(dims, trees[i]); return Some(ExcessiveNodeCount); }
      totalNodes := totalNodes + nodeCount;
      if totalNodes > MAX_TOTAL_NODES {
        TotalOfPrefix(trees, i + 1);
        return Some(ExcessiveNodeCount);
      }
      if !InRange(tree.nodes, tree.root) { assert !TreeOk(dims, trees[i]); return Some(InvalidTreeRoot); }
      e := CheckNodes(dims, tree.nodes);
      if e.Some? { assert !TreeOk(dims, trees[i]); return; }
      NodesAreLinked(dims, tree.nodes);
      e := CheckGraph(tree.nodes, tree.root);
      if e.Some? { assert !TreeOk(dims, trees[i]); return; }
    }
    assert trees[..|trees|] == trees;
    return None;
  }

  lemma NodesAreLinked(dims: int, nodes: seq<Node>)
    requires NodesOk(dims, nodes)
    ensures Linked(nodes)
  {
    forall v | InRange(nodes, v) && !nodes[v].IsLeaf()
      ensures InRange(nodes, nodes[v].left) && InRange(nodes, nodes[v].right) && nodes[v].left != nodes[v].right
    {
      assert NodeError(nodes[v], dims, |nodes|).None?;
    }
  }

  // ---- Inference -----------------------------------------------------------

  datatype Landing = Landing(depth: nat, leaf: int)

  predicate Routable(nodes: seq<Node>, v: int, vec: seq<Float>) {
    InRange(nodes, v) && 0 <= nodes[v].feature < |vec|
  }

  function Next(nodes: seq<Node>, v: int, vec: seq<Float>): int
    requires Routable(nodes, v, vec)
  {
    if Less(vec[nodes[v].feature], nodes[v].split) then nodes[v].left else nodes[v].right
  }

  /** Specification of the walk from node `v`, entered at `depth`. */
  function Walk(nodes: seq<Node>, v: int, vec: seq<Float>, depth: nat): Result<Landing, Error>
    requires Linked(nodes) && InRange(nodes, v)
    decreases MAX_TREE_DEPTH + 1 - depth
  {
    if depth > MAX_TREE_DEPTH then Err(ExcessiveDepth)
    else if nodes[v].IsLeaf() then Ok(Landing(depth, v))
    else if !Routable(nodes, v, vec) then Err(InvalidFeature)
    else Walk(nodes, Next(nodes, v, vec), vec, depth + 1)
  }

  /** `p` is the path the vector's split decisions take. */
  predicate Follows(nodes: seq<Node>, vec: seq<Float>, p: seq<int>) {
    Path(nodes, p) && forall i :: 0 <= i < |p| - 1 ==> Routable(nodes, p[i], vec) && p[i + 1] == Next(nodes, p[i], vec)
  }

  /** In a validated tree a vector of at least the right dimension, NaN and infinities included, is led along its
      own decisions to a leaf: no index is out of range and the depth error is never returned. */
  lemma {:induction false} WalkReachesLeaf(dims: int, t: Tree, vec: seq<Float>, p: seq<int>) returns (q: seq<int>)
    requires TreeOk(dims, t) && Linked(t.nodes) && |vec| >= dims
    requires Follows(t.nodes, vec, p) && p[0] == t.root && InRange(t.nodes, p[|p| - 1])
    ensures p <= q && Follows(t.nodes, vec, q) && InRange(t.nodes, q[|q| - 1]) && t.nodes[q[|q| - 1]].IsLeaf()
    ensures Walk(t.nodes, p[|p| - 1], vec, |p| - 1) == Ok(Landing(|q| - 1, q[|q| - 1]))
    ensures |q| - 1 <= MAX_TREE_DEPTH
    decreases MAX_TREE_DEPTH + 1 - |p|
  {
    var v := p[|p| - 1];
    if t.nodes[v].IsLeaf() {
      q := p;
    } else {
      assert NodeError(t.nodes[v], dims, |t.nodes|).None?;
      var p' := p + [Next(t.nodes, v, vec)];
      assert Follows(t.nodes, vec, p');
      q := WalkReachesLeaf(dims, t, vec, p');
    }
  }

  /** A vector of any other dimension can only meet a feature it lacks: a validated tree is never too deep. */
  lemma {:induction false} WalkFailsOnlyOnFeature(dims: int, t: Tree, vec: seq<Float>, p: seq<int>)
    requires TreeOk(dims, t) && Linked(t.nodes)
    requires Follows(t.nodes, vec, p) && p[0] == t.root && InRange(t.nodes, p[|p| - 1])
    ensures var w := Walk(t.nodes, p[|p| - 1], vec, |p| - 1);
      if w.Ok? then InRange(t.nodes, w.value.leaf) && t.nodes[w.value.leaf].IsLeaf() else w.error == InvalidFeature && |vec| < dims
    decreases MAX_TREE_DEPTH + 1 - |p|
  {
    var v := p[|p| - 1];
    if !t.nodes[v].IsLeaf() {
      assert NodeError(t.nodes[v], dims, |t.nodes|).None?;
      if Routable(t.nodes, v, vec) {
        var p' := p + [Next(t.nodes, v, vec)];
        assert Follows(t.nodes, vec, p');
        WalkFailsOnlyOnFeature(dims, t, vec, p');
      }
    }
  }

  /** `p` goes from `v` down: at each inner node to its left child when the vector's value of the split feature is
      less than the split value, and to its right child otherwise. */
  predicate Descends(nodes: seq<Node>, vec: seq<Float>, v: int, p: seq<int>) {
    |p| > 0 && p[0] == v && forall i :: 0 <= i < |p| - 1 ==> GoesDown(nodes, vec, p[i], p[i + 1])
  }

  predicate GoesDown(nodes: seq<Node>, vec: seq<Float>, a: int, b: int) {
    && 0 <= a < |nodes| && !(nodes[a].left == -1 && nodes[a].right == -1) && 0 <= nodes[a].feature < |vec|
    && (Less(vec[nodes[a].feature], nodes[a].split) ==> b == nodes[a].left)
    && (!Less(vec[nodes[a].feature], nodes[a].split) ==> b == nodes[a].right)
  }

  /** A descent that ends at a leaf, of the given depth. */
  ghost predicate DescendsToLeaf(nodes: seq<Node>, vec: seq<Float>, root: int, l: Landing) {
    && 0 <= l.leaf < |nodes| && nodes[l.leaf].left == -1 && nodes[l.leaf].right == -1
    && exists p :: Descends(nodes, vec, root, p) && |p| == l.depth + 1 && p[l.depth] == l.leaf
  }

  /** `<` of IEEE 754: false with a NaN on either side. */
  lemma LessIsIeee(a: Float, b: Float)
    ensures Less(a, b) <==>
      (a.Finite? && b.Finite? && a.v < b.v) || (a == NegInf && (b.Finite? || b == PosInf)) || (a.Finite? && b == PosInf)
  {
  }

  lemma {:induction false} WalkDescends(nodes: seq<Node>, vec: seq<Float>, v: int, depth: nat) returns (p: seq<int>)
    requires Linked(nodes) && InRange(nodes, v) && Walk(nodes, v, vec, depth).Ok?
    ensures var l := Walk(nodes, v, vec, depth).value;
      && Descends(nodes, vec, v, p) && depth + |p| - 1 == l.depth <= MAX_TREE_DEPTH && p[|p| - 1] == l.leaf
      && InRange(nodes, l.leaf) && nodes[l.leaf].IsLeaf()
    decreases MAX_TREE_DEPTH + 1 - depth
  {
    if nodes[v].IsLeaf() {
      p := [v];
    } else {
      var rest := WalkDescends(nodes, vec, Next(nodes, v, vec), depth + 1);
      p := [v] + rest;
      forall i | 0 <= i < |p| - 1 ensures GoesDown(nodes, vec, p[i], p[i + 1]) {
        if i > 0 { assert p[i] == rest[i - 1] && p[i + 1] == rest[i]; }
      }
    }
  }

  lemma {:induction false} DescentIsWalked(nodes: seq<Node>, vec: seq<Float>, v: int, p: seq<int>, depth: nat)
    requires Linked(nodes) && InRange(nodes, v) && Descends(nodes, vec, v, p) && depth + |p| - 1 <= MAX_TREE_DEPTH
    requires InRange(nodes, p[|p| - 1]) && nodes[p[|p| - 1]].IsLeaf()
    ensures Walk(nodes, v, vec, depth) == Ok(Landing(depth + |p| - 1, p[|p| - 1]))
    decreases |p|
  {
    if |p| > 1 {
      assert GoesDown(nodes, vec, p[0], p[1]);
      var rest := p[1..];
      forall i | 0 <= i < |rest| - 1 ensures GoesDown(nodes, vec, rest[i], rest[i + 1]) {
        assert GoesDown(nodes, vec, p[i + 1], p[i + 2]);
      }
      DescentIsWalked(nodes, vec, p[1], rest, depth + 1);
    }
  }

  /** The walk lands on a leaf at a depth exactly when the vector's comparisons lead down to that leaf in so many steps,
      within the depth limit. */
  lemma {:induction false} LandsIffDescends(nodes: seq<Node>, vec: seq<Float>, root: int, l: Landing)
    requires Linked(nodes) && InRange(nodes, root)
    ensures Walk(nodes, root, vec, 0) == Ok(l) <==> l.depth <= 50 && DescendsToLeaf(nodes, vec, root, l)
  {
    if Walk(nodes, root, vec, 0) == Ok(l) { var p := WalkDescends(nodes, vec, root, 0); }
    if l.depth <= 50 && DescendsToLeaf(nodes, vec, root, l) {
      var p :| Descends(nodes, vec, root, p) && |p| == l.depth + 1 && p[l.depth] == l.leaf;
      DescentIsWalked(nodes, vec, root, p, 0);
    }
  }

  lemma LastEdge(nodes: seq<Node>, p: seq<int>)
    requires Path(nodes, p) && |p| > 1
    ensures Edge(nodes, p[|p| - 2], p[|p| - 1])
  {
    assert Edge(nodes, p[|p| - 2], p[|p| - 2 + 1]);
  }

  /** A bounded tree has one path from the root to each node, so a node's depth is the length of any. */
  lemma {:induction false} PathsAreUnique(nodes: seq<Node>, root: int, v: int, p: seq<int>, q: seq<int>)
    requires BoundedTree(nodes, root) && PathTo(nodes, root, v, p) && PathTo(nodes, root, v, q)
    ensures p == q
    decreases |p|
  {
    if |p| > 1 { LastEdge(nodes, p); }
    if |q| > 1 { LastEdge(nodes, q); }
    if |p| > 1 && |q| > 1 {
      PathsAreUnique(nodes, root, p[|p| - 2], p[..|p| - 1], q[..|q| - 1]);
    }
  }

  /** The counted depth is the depth of the leaf in the tree. */
  lemma CountedDepthIsTreeDepth(dims: int, t: Tree, vec: seq<Float>, p: seq<int>)
    requires TreeOk(dims, t) && Linked(t.nodes) && |vec| >= dims
    ensures var w := Walk(t.nodes, t.root, vec, 0);
            w.Ok? && w.value.depth <= MAX_TREE_DEPTH && InRange(t.nodes, w.value.leaf) &&
            t.nodes[w.value.leaf].IsLeaf() && Reachable(t.nodes, t.root, w.value.leaf) &&
            (PathTo(t.nodes, t.root, w.value.leaf, p) ==> |p| - 1 == w.value.depth)
  {
    assert Follows(t.nodes, vec, [t.root]);
    var q := WalkReachesLeaf(dims, t, vec, [t.root]);
    assert PathTo(t.nodes, t.root, q[|q| - 1], q);
    if PathTo(t.nodes, t.root, q[|q| - 1], p) {
      PathsAreUnique(t.nodes, t.root, q[|q| - 1], p, q);
    }
  }

  /** TraverseTree; `rootSplit` is the feature the root splits on, or -1. */
  method TraverseTree(t: Tree, vec: seq<Float>) returns (r: Result<Landing, Error>, rootSplit: int)
    requires InRange(t.nodes, t.root) && Linked(t.nodes)
    ensures r == Walk(t.nodes, t.root, vec, 0)
    ensures r.Ok? ==> r.value.depth <= 50 && DescendsToLeaf(t.nodes, vec, t.root, r.value)
    ensures r.Ok? ==> InRange(t.nodes, r.value.leaf) && t.nodes[r.value.leaf].IsLeaf() &&
                      rootSplit == if t.nodes[t.root].IsLeaf() then -1 else t.nodes[t.root].feature
    ensures r.Err? ==> rootSplit == -1
  {
    if Walk(t.nodes, t.root, vec, 0).Ok? {
      LandsIffDescends(t.nodes, vec, t.root, Walk(t.nodes, t.root, vec, 0).value);
    }
    hide DescendsToLeaf;
    var currIdx, depth := t.root, 0;
    rootSplit := -1;
    if !t.nodes[currIdx].IsLeaf() {
      rootSplit := t.nodes[currIdx].feature;
    }
    while depth <= MAX_TREE_DEPTH
      invariant InRange(t.nodes, currIdx) && depth <= MAX_TREE_DEPTH + 1
      invariant Walk(t.nodes, t.root, vec, 0) == Walk(t.nodes, currIdx, vec, depth)
    {
      var node := t.nodes[currIdx];
      if node.IsLeaf() {
        return Ok(Landing(depth, currIdx)), rootSplit;
      }
      if node.feature < 0 || node.feature >= |vec| {
        return Err(InvalidFeature), -1;
      }
      if Less(vec[node.feature], node.split) {
        currIdx := node.left;
      } else {
        currIdx := node.right;
      }
      depth := depth + 1;
    }
    return Err(ExcessiveDepth), -1;
  }

  ghost predicate Walkable(trees: seq<Tree>) {
    forall i :: 0 <= i < |trees| ==> InRange(trees[i].nodes, trees[i].root) && Linked(trees[i].nodes)
  }

  /** Path length of one tree: the leaf's depth plus the correction for its samples. */
  ghost function PathLength(t: Tree, vec: seq<Float>, c: int -> real): real
    requires InRange(t.nodes, t.root) && Linked(t.nodes)
  {
    match Walk(t.nodes, t.root, vec, 0)
    case Ok(w) => w.depth as real + if InRange(t.nodes, w.leaf) then c(t.nodes[w.leaf].size) else 0.0
    case Err(_) => 0.0
  }

  ghost function TotalPathLength(trees: seq<Tree>, vec: seq<Float>, c: int -> real): real
    requires Walkable(trees)
  {
    if trees == [] then 0.0
    else TotalPathLength(trees[..|trees| - 1], vec, c) + PathLength(trees[|trees| - 1], vec, c)
  }

  /** A tree adds the number of splits on the way to the vector's leaf and the correction for the leaf's samples. */
  lemma PathLengthIs(t: Tree, vec: seq<Float>, c: int -> real, l: Landing)
    requires InRange(t.nodes, t.root) && Linked(t.nodes) && l.depth <= 50 && DescendsToLeaf(t.nodes, vec, t.root, l)
    ensures PathLength(t, vec, c) == l.depth as real + c(t.nodes[l.leaf].size)
  {
    LandsIffDescends(t.nodes, vec, t.root, l);
  }

  /** The total counts every tree once, in any order of adding. */
  lemma {:induction false} TotalAdds(a: seq<Tree>, b: seq<Tree>, vec: seq<Float>, c: int -> real)
    requires Walkable(a) && Walkable(b)
    ensures Walkable(a + b) && TotalPathLength(a + b, vec, c) == TotalPathLength(a, vec, c) + TotalPathLength(b, vec, c)
    ensures |b| == 1 ==> TotalPathLength(b, vec, c) == PathLength(b[0], vec, c)
  {
    hide PathLength;
    if b == [] {
      assert a + b == a;
    } else {
      var front := b[..|b| - 1];
      TotalAdds(a, front, vec, c);
      assert (a + b)[..|a + b| - 1] == a + front;
      if |b| == 1 { assert TotalPathLength(front, vec, c) == 0.0; }
    }
  }

  /** The vector reaches a leaf in each tree. */
  ghost predicate AllReach(trees: seq<Tree>, vec: seq<Float>)
    requires Walkable(trees)
  {
    forall i :: 0 <= i < |trees| ==> Walk(trees[i].nodes, trees[i].root, vec, 0).Ok?
  }

  lemma TreeReaches(dims: int, t: Tree, vec: seq<Float>)
    requires TreeOk(dims, t) && Linked(t.nodes)
    ensures var w := Walk(t.nodes, t.root, vec, 0);
      if w.Ok? then InRange(t.nodes, w.value.leaf) && t.nodes[w.value.leaf].IsLeaf() else w.error == InvalidFeature && |vec| < dims
  {
    assert Follows(t.nodes, vec, [t.root]);
    WalkFailsOnlyOnFeature(dims, t, vec, [t.root]);
  }

  /** The average path length over the forest; `c` is ExpectedPathLength. A validated model fails exactly when the vector
      meets a split on a feature it lacks, which takes fewer features than the model's dimension. */
  method AveragePathLength(ghost dims: int, trees: seq<Tree>, vec: seq<Float>, c: int -> real)
      returns (r: Result<real, Error>)
    requires ForestOk(dims, trees)
    ensures Walkable(trees)
    ensures r == if AllReach(trees, vec) then Ok(TotalPathLength(trees, vec, c) / |trees| as real) else Err(InvalidFeature)
    ensures |vec| >= dims ==> r.Ok?
  {
    hide BoundedTree, Linked, NodesOk, DescendsToLeaf;
    forall i | 0 <= i < |trees| ensures InRange(trees[i].nodes, trees[i].root) && Linked(trees[i].nodes) {
      assert TreeOk(dims, trees[i]);
      NodesAreLinked(dims, trees[i].nodes);
    }
    var total := 0.0;
    for i := 0 to |trees|
      invariant total == TotalPathLength(trees[..i], vec, c)
      invariant AllReach(trees[..i], vec)
    {
      assert TreeOk(dims, trees[i]);
      TreeReaches(dims, trees[i], vec);
      var w, _ := TraverseTree(trees[i], vec);
      if w.Err? { return Err(w.error); }
      assert trees[..i + 1][..i] == trees[..i];
      total := total + (w.value.depth as real + c(trees[i].nodes[w.value.leaf].size));
    }
    assert trees[..|trees|] == trees;
    return Ok(total / |trees| as real);
  }
}
