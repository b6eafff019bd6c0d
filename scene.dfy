/** The scene tree: nodes that hold an entity and an ordered list of children, the graph
    that holds the root nodes, the pre-order walks that call into the entities, and the
    factory that builds the default scene.  Entities are opaque here; a walk records the
    callback each entity receives. */
module Scene {
  import opened Calls

  /** The sequence with every occurrence of x removed and the rest kept in order, as
      std::remove followed by erase leaves a vector. */
  function Without<T(==)>(s: seq<T>, x: T): (r: seq<T>)
    ensures x !in r
    ensures x !in s ==> r == s
  {
    if s == [] then []
    else if s[|s| - 1] == x then Without(s[..|s| - 1], x)
    else Without(s[..|s| - 1], x) + [s[|s| - 1]]
  }

  /** Every other element keeps its number of occurrences, and nothing is added. */
  lemma {:induction false} WithoutKeepsOthers<T>(s: seq<T>, x: T)
    ensures forall y :: y in s && y != x ==> multiset(Without(s, x))[y] == multiset(s)[y]
    ensures multiset(Without(s, x)) <= multiset(s)
    ensures |Without(s, x)| == |s| - multiset(s)[x]
  {
    if s != [] {
      var init := s[..|s| - 1];
      assert s == init + [s[|s| - 1]];
      WithoutKeepsOthers(init, x);
    }
  }

  /** Removal works piecewise, so the elements that stay keep their relative order. */
  lemma {:induction false} WithoutConcat<T>(a: seq<T>, b: seq<T>, x: T)
    ensures Without(a + b, x) == Without(a, x) + Without(b, x)
    decreases |b|
  {
    if b != [] {
      var init := b[..|b| - 1];
      assert a + b == (a + init) + [b[|b| - 1]];
      assert (a + b)[..|a + b| - 1] == a + init;
      WithoutConcat(a, init, x);
    } else {
      assert a + b == a;
    }
  }

  /** A ghost snapshot of the subtree below a node: the node and the snapshots of its
      children in order.  A snapshot is finite, so the children links it describes hold no
      cycle; the same node may still occur in it more than once. */
  datatype Tree = Tree(node: SceneNode, children: seq<Tree>)

  /** The nodes a snapshot mentions. */
  ghost function Nodes(t: Tree): set<SceneNode>
    decreases t
  {
    {t.node} + set i, n | 0 <= i < |t.children| && n in Nodes(t.children[i]) :: n
  }

  /** The nodes a snapshot mentions exist, so a snapshot stays true across calls that
      change other objects only. */
  lemma {:induction false} NodesAllocated(t: Tree)
    ensures forall n :: n in Nodes(t) ==> allocated(n)
    decreases t
  {
    forall i | 0 <= i < |t.children| {
      NodesAllocated(t.children[i]);
    }
  }

  /** The snapshot agrees with the children vectors in the heap. */
  ghost predicate Describes(t: Tree)
    reads Nodes(t)
    decreases t
  {
    |t.node.children| == |t.children|
    && forall i :: 0 <= i < |t.children| ==>
         t.node.children[i] == t.children[i].node && Describes(t.children[i])
  }

  /** The entities a pre-order walk from t reaches, in the order it reaches them: the
      node's own entity when it has one, then the walk of each child in turn. */
  function Visits(t: Tree): seq<Ptr>
    decreases t, 1
  {
    (if t.node.entity != Null then [t.node.entity] else []) + ChildVisits(t, |t.children|)
  }

  /** The walks of the first n children of t, one after the other. */
  function ChildVisits(t: Tree, n: nat): seq<Ptr>
    requires n <= |t.children|
    decreases t, 0, n
  {
    if n == 0 then [] else ChildVisits(t, n - 1) + Visits(t.children[n - 1])
  }

  /** A walk never reports a missing entity. */
  lemma {:induction false} VisitsHaveEntities(t: Tree)
    ensures Null !in Visits(t)
    decreases t, 1
  {
    ChildVisitsHaveEntities(t, |t.children|);
  }

  lemma {:induction false} ChildVisitsHaveEntities(t: Tree, n: nat)
    requires n <= |t.children|
    ensures Null !in ChildVisits(t, n)
    decreases t, 0, n
  {
    if n > 0 {
      ChildVisitsHaveEntities(t, n - 1);
      VisitsHaveEntities(t.children[n - 1]);
    }
  }

  /** A walk reaches every node of a snapshot that holds an entity. */
  lemma {:induction false} VisitsReachEveryEntity(t: Tree, n: SceneNode)
    requires n in Nodes(t) && n.entity != Null
    ensures n.entity in Visits(t)
    decreases t, 1
  {
    var own := if t.node.entity != Null then [t.node.entity] else [];
    assert Visits(t) == own + ChildVisits(t, |t.children|);
    if n != t.node {
      var i :| 0 <= i < |t.children| && n in Nodes(t.children[i]);
      VisitsReachEveryEntity(t.children[i], n);
      ChildVisitsContain(t, |t.children|, i, n.entity);
    }
  }

  /** The walks of the first n children contain what the walk of each of them reaches. */
  lemma {:induction false} ChildVisitsContain(t: Tree, n: nat, i: nat, e: Ptr)
    requires i < n <= |t.children| && e in Visits(t.children[i])
    ensures e in ChildVisits(t, n)
    decreases n
  {
    assert ChildVisits(t, n) == ChildVisits(t, n - 1) + Visits(t.children[n - 1]);
    if i < n - 1 {
      ChildVisitsContain(t, n - 1, i, e);
    }
  }

  /** The entities the walks from the roots reach, one root after the other. */
  function RootVisits(trees: seq<Tree>): seq<Ptr> {
    if trees == [] then [] else RootVisits(trees[..|trees| - 1]) + Visits(trees[|trees| - 1])
  }

  /** The nodes of a list of snapshots. */
  ghost function AllNodes(trees: seq<Tree>): set<SceneNode> {
    set j, n | 0 <= j < |trees| && n in Nodes(trees[j]) :: n
  }

  /** trees snapshot the subtrees below roots, one for one. */
  ghost predicate RootsDescribed(roots: seq<SceneNode>, trees: seq<Tree>)
    reads AllNodes(trees)
  {
    |roots| == |trees| && forall j :: 0 <= j < |trees| ==> trees[j].node == roots[j] && Describes(trees[j])
  }

  lemma AllNodesAllocated(trees: seq<Tree>)
    ensures forall n :: n in AllNodes(trees) ==> allocated(n)
  {
    forall j | 0 <= j < |trees| {
      NodesAllocated(trees[j]);
    }
  }

  /** The three callbacks a walk delivers, each with the one argument it passes to every
      entity: the frame number, the command list, the device. */
  datatype Callback = Update(frame: nat) | Render(commandList: Ptr) | ResourceCreate(device: Ptr)

  function Notification(cb: Callback, entity: Ptr): Call {
    match cb
    case Update(frame) => EntityUpdate(entity, frame)
    case Render(commandList) => EntityRender(entity, commandList)
    case ResourceCreate(device) => EntityResourceCreate(entity, device)
  }

  /** The calls that deliver cb to each entity of es, in order. */
  function Notifications(cb: Callback, es: seq<Ptr>): seq<Call> {
    if es == [] then [] else Notifications(cb, es[..|es| - 1]) + [Notification(cb, es[|es| - 1])]
  }

  /** The k-th call goes to the k-th entity, with cb's argument. */
  lemma {:induction false} NotificationsAt(cb: Callback, es: seq<Ptr>)
    ensures |Notifications(cb, es)| == |es|
    ensures forall k :: 0 <= k < |es| ==> Notifications(cb, es)[k] == Notification(cb, es[k])
  {
    if es != [] {
      var init := es[..|es| - 1];
      NotificationsAt(cb, init);
      assert Notifications(cb, es) == Notifications(cb, init) + [Notification(cb, es[|es| - 1])];
      forall k | 0 <= k < |es|
        ensures Notifications(cb, es)[k] == Notification(cb, es[k])
      {
        if k < |init| {
          assert es[k] == init[k];
        }
      }
    }
  }

  /** A log that received the calls for a, then those for b, received the calls for a + b. */
  lemma NotificationsAppend(cb: Callback, start: seq<Call>, a: seq<Ptr>, b: seq<Ptr>, calls: seq<Call>)
    requires calls == start + Notifications(cb, a) + Notifications(cb, b)
    ensures calls == start + Notifications(cb, a + b)
  {
    NotificationsConcat(cb, a, b);
    AppendAssoc(start, Notifications(cb, a), Notifications(cb, b));
  }

  lemma {:induction false} NotificationsConcat(cb: Callback, a: seq<Ptr>, b: seq<Ptr>)
    ensures Notifications(cb, a + b) == Notifications(cb, a) + Notifications(cb, b)
    decreases |b|
  {
    if b == [] {
      assert a + b == a;
    } else {
      var init := b[..|b| - 1];
      assert (a + b)[..|a + b| - 1] == a + init;
      NotificationsConcat(cb, a, init);
      AppendAssoc(Notifications(cb, a), Notifications(cb, init), [Notification(cb, b[|b| - 1])]);
    }
  }

  /** std::vector<SceneNode*> children, a parent link and the entity given at
      construction. */
  class SceneNode {
    const entity: Ptr
    var parent: SceneNode?
    var children: seq<SceneNode>

    /** A new node holds the given entity, no parent and no children. */
    constructor (entity: Ptr)
      ensures this.entity == entity && parent == null && children == []
    {
      this.entity := entity;
      parent := null;
      children := [];
    }

    /** The node's parent link, null for a root. */
    function GetParent(): (p: SceneNode?)
      reads this
      ensures p == parent
    {
      parent
    }

    /** Appends the child, even when it is already there; the child's parent link is left
        as it is. */
    method AddChild(child: SceneNode)
      modifies this`children
      ensures children == old(children) + [child]
    {
      children := children + [child];
    }

    /** Removes every occurrence of the child, keeping the others in order. */
    method RemoveChild(child: SceneNode)
      modifies this`children
      ensures children == Without(old(children), child)
    {
      var kept: seq<SceneNode> := [];
      var i := 0;
      while i < |children|
        invariant i <= |children|
        invariant kept == Without(children[..i], child)
      {
        assert children[..i + 1][..i] == children[..i];
        if children[i] != child {
          kept := kept + [children[i]];
        }
        i := i + 1;
      }
      assert children[..i] == children;
      children := kept;
    }

    /** Ignores a null parent, the current parent and the node itself (a descendant is not
        rejected); otherwise leaves the old parent's children, takes the new parent and
        joins the end of its children. */
    method SetParent(inParent: SceneNode?)
      modifies this, {inParent, parent}`children
      ensures inParent == null || inParent == old(parent) || inParent == this ==>
        parent == old(parent) && children == old(children)
        && (inParent != null ==> inParent.children == old(inParent.children))
        && (parent != null ==> parent.children == old(parent.children))
      ensures inParent != null && inParent != old(parent) && inParent != this ==>
        GetParent() == inParent
        && inParent.children == old(inParent.children) + [this]
        && (old(parent) != null ==> old(parent).children == Without(old(parent.children), this))
        && (old(parent) != this ==> children == old(children))
    {
      if inParent == null {
        return;
      }
      if inParent == parent {
        return;
      }
      if inParent == this {
        return;
      }
      if parent != null {
        parent.RemoveChild(this);
      }
      parent := inParent;
      parent.AddChild(this);
    }

    /** The pre-order walk shared by OnUpdate, OnRender and OnResourceCreate: this node's
        entity when it has one, then each child's walk in vector order. */
    method Walk(log: CallLog, cb: Callback, ghost t: Tree)
      requires t.node == this && Describes(t) && !log.exited
      modifies log
      ensures log.calls == old(log.calls) + Notifications(cb, Visits(t)) && !log.exited
      decreases t, 1
    {
      ghost var start := log.calls;
      ghost var own: seq<Ptr> := if entity != Null then [entity] else [];
      NodesAllocated(t);
      if entity != Null {
        log.Issue(Notification(cb, entity));
      }
      assert log.calls == start + Notifications(cb, own) by {
        if entity != Null {
          assert own[..0] == [];
        }
      }
      WalkChildren(log, cb, t);
      NotificationsAppend(cb, start, own, ChildVisits(t, |t.children|), log.calls);
    }

    /** The loop of Walk over the children, in vector order. */
    method WalkChildren(log: CallLog, cb: Callback, ghost t: Tree)
      requires t.node == this && Describes(t) && !log.exited && forall n :: n in Nodes(t) ==> allocated(n)
      modifies log
      ensures log.calls == old(log.calls) + Notifications(cb, ChildVisits(t, |t.children|)) && !log.exited
      decreases t, 0, 1
    {
      ghost var start := log.calls;
      var i := 0;
      while i < |children|
        invariant i <= |children| == |t.children| && !log.exited && Describes(t)
        invariant log.calls == start + Notifications(cb, ChildVisits(t, i))
      {
        ghost var before := ChildVisits(t, i);
        WalkChild(log, cb, t, i);
        NotificationsAppend(cb, start, before, Visits(t.children[i]), log.calls);
        assert ChildVisits(t, i + 1) == before + Visits(t.children[i]);
        i := i + 1;
      }
    }

    /** One turn of that loop: the walk of the i-th child. */
    method WalkChild(log: CallLog, cb: Callback, ghost t: Tree, i: nat)
      requires t.node == this && Describes(t) && i < |t.children| && !log.exited
      modifies log
      ensures log.calls == old(log.calls) + Notifications(cb, Visits(t.children[i])) && !log.exited
      decreases t, 0, 0
    {
      ghost var child := t.children[i];
      assert children[i] == child.node && Describes(child);
      children[i].Walk(log, cb, child);
    }

    method OnUpdate(log: CallLog, frame: nat, ghost t: Tree)
      requires t.node == this && Describes(t) && !log.exited
      modifies log
      ensures log.calls == old(log.calls) + Notifications(Update(frame), Visits(t)) && !log.exited
    {
      Walk(log, Update(frame), t);
    }

    method OnRender(log: CallLog, commandList: Ptr, ghost t: Tree)
      requires t.node == this && Describes(t) && !log.exited
      modifies log
      ensures log.calls == old(log.calls) + Notifications(Render(commandList), Visits(t)) && !log.exited
    {
      Walk(log, Render(commandList), t);
    }

    method OnResourceCreate(log: CallLog, device: Ptr, ghost t: Tree)
      requires t.node == this && Describes(t) && !log.exited
      modifies log
      ensures log.calls == old(log.calls) + Notifications(ResourceCreate(device), Visits(t)) && !log.exited
    {
      Walk(log, ResourceCreate(device), t);
    }
  }

  /** The root nodes, iterated in the order they were added. */
  class SceneGraph {
    var nodes: seq<SceneNode>

    constructor ()
      ensures nodes == []
    {
      nodes := [];
    }

    /** Appends a node that exists and has no parent, even one already listed. */
    method AddNode(sceneNode: SceneNode?)
      modifies this
      ensures nodes == if sceneNode != null && sceneNode.GetParent() == null then old(nodes) + [sceneNode] else old(nodes)
    {
      if sceneNode != null && sceneNode.GetParent() == null {
        nodes := nodes + [sceneNode];
      }
    }

    /** Removes every occurrence of the node, keeping the others in order; the node itself
        is not destroyed. */
    method RemoveNode(sceneNode: SceneNode?)
      modifies this
      ensures nodes == Without<SceneNode?>(old(nodes), sceneNode)
    {
      var kept: seq<SceneNode> := [];
      var i := 0;
      while i < |nodes|
        invariant i <= |nodes|
        invariant kept == Without<SceneNode?>(nodes[..i], sceneNode)
      {
        assert nodes[..i + 1][..i] == nodes[..i];
        if nodes[i] != sceneNode {
          kept := kept + [nodes[i]];
        }
        i := i + 1;
      }
      assert nodes[..i] == nodes;
      nodes := kept;
    }
  }

  /** The factory with the hard-coded default scene. */
  class DefaultSceneGraphFactory {
    constructor ()
    {
    }

    /** A new graph with two roots: a node without an entity, then a node holding the newly
        created triangle entity; neither has children or a parent. */
    method Make(triangleEntity: Ptr) returns (sceneGraph: SceneGraph)
      requires triangleEntity != Null
      ensures fresh(sceneGraph) && |sceneGraph.nodes| == 2
      ensures fresh(sceneGraph.nodes[0]) && fresh(sceneGraph.nodes[1]) && sceneGraph.nodes[0] != sceneGraph.nodes[1]
      ensures sceneGraph.nodes[0].entity == Null && sceneGraph.nodes[1].entity == triangleEntity
      ensures forall k :: 0 <= k < 2 ==> sceneGraph.nodes[k].parent == null && sceneGraph.nodes[k].children == []
    {
      sceneGraph := new SceneGraph();
      var rootNode := new SceneNode(Null);
      var triangleNode := new SceneNode(triangleEntity);
      sceneGraph.AddNode(rootNode);
      sceneGraph.AddNode(triangleNode);
    }
  }

  /** The walks of the default scene: the first root reaches nothing, the second reaches
      the triangle entity alone. */
  lemma DefaultSceneVisits(first: SceneNode, second: SceneNode)
    requires first.entity == Null && first.children == [] && second.entity != Null && second.children == []
    ensures Visits(Tree(first, [])) == [] && Visits(Tree(second, [])) == [second.entity]
    ensures Describes(Tree(first, [])) && Describes(Tree(second, []))
  {
  }
}
